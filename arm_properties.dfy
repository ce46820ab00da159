/**
 * What the ARM decoder guarantees, stated over all opcodes: the condition
 * suffix, the data-processing operand forms, the branch targets, the
 * load/store flag tables, the load/store-multiple modes, the behaviour
 * the source shows where it departs from the architecture, and the
 * corrected DSP multiply decoding.
 */
module ArmProperties {
  import opened DisasmTypes
  import opened DisasmCommon
  import opened ArmDecoder

  /** The condition table has sixteen entries; AL (1110) prints as nothing
      and 1111 as "NV", and AL is the only condition with an empty suffix. */
  lemma ConditionSuffix(opcode: bv32)
    ensures |ConditionStrings| == 16
    ensures ConditionStrings[14] == "" && ConditionStrings[15] == "NV"
    ensures Cond(opcode) == ConditionStrings[(opcode >> 28) as bv4]
    ensures Cond(opcode) == "" <==> opcode >> 28 == 0xe
  {
    assert (opcode & 0xf000_0000) >> 28 == opcode >> 28;
    var k := (opcode >> 28) as bv4;
    if k != 14 {
      assert |ConditionStrings[k]| == 2;
    }
  }

  /** ror rotates right; rotating by zero gives the value back. */
  lemma RorByZero(value: bv32)
    ensures Ror(value, 0) == value
  {
  }

  /** The data-processing immediate form (class 001 outside the undefined
      and MSR patterns): the operand is imm8 rotated right by twice the
      rotate field, the record is variant 0, and the 4-bit operation field
      selects the type. */
  lemma DataProcImmediate(opcode: bv32, address: bv32)
    requires opcode >> 28 != 0xf
    requires (opcode & 0x0e00_0000) == 0x0200_0000
    requires (opcode & 0x0fb0_0000) != 0x0300_0000 && (opcode & 0x0fb0_0000) != 0x0320_0000
    ensures var d := ArmEvaluateOpcode(opcode, address).desc;
      && d.info.DataProc?
      && d.info.operand.Variant() == 0
      && d.info.operand == Immediate((opcode & 0xff).RotateRight((2 * ((opcode >> 8) & 0xf)) as nat))
      && d.info.Rd == U4(opcode >> 12) && d.info.Rn == U4(opcode >> 16) && d.info.S == U1(opcode >> 20)
      && d.kind == DataProcOperation(U4(opcode >> 21)).0
  {
    assert (opcode & 0xf000_0000) != 0xf000_0000;
    assert ((opcode & 0xf00) >> 8) * 2 == 2 * ((opcode >> 8) & 0xf);
  }

  /** MOV r0, #0xFF ROR 8 (0xE3A008FF) carries the immediate 0x00FF0000. */
  lemma DataProcImmediateExample(address: bv32)
    ensures var d := ArmEvaluateOpcode(0xE3A0_08FF, address).desc;
      d.kind == MOV && d.info == DataProc(0, 0, 0, Immediate(0x00FF_0000))
  {
    DataProcImmediate(0xE3A0_08FF, address);
  }

  /** The sixteen operation codes name sixteen different types. */
  lemma DataProcOperationsDistinct(a: int, b: int)
    requires 0 <= a < 16 && 0 <= b < 16 && a != b
    ensures DataProcOperation(a).0 != DataProcOperation(b).0
  {
  }

  /** Within data processing, exactly MOV r0, r0 (0xE1A00000) is shown as
      a bare NOP; every other layout has operands. */
  lemma DataProcNop(opcode: bv32)
    ensures EvaluateDataProc(opcode).text == Asm("NOP", []) <==> opcode == 0xe1a0_0000
  {
    var op := U4(opcode >> 21);
    if opcode == 0xe1a0_0000 {
      assert op == 0xd;
    }
  }

  /** The register form with an immediate shift: the record keeps the raw
      shift and amount, while the text shows LSR/ASR #0 as #32 and ROR #0
      as RRX. */
  lemma DataProcImmediateShift(opcode: bv32)
    requires (opcode & 0x0200_0000) == 0 && (opcode & 0x10) == 0
    ensures EvaluateDataProc(opcode).info.operand
      == ImmediateShift(U4(opcode), U2(opcode >> 5), U5(opcode >> 7))
    ensures var shifter := DataProcShifter(opcode).1;
      && (U2(opcode >> 5) == 1 && U5(opcode >> 7) == 0 ==> shifter == [Reg(U4(opcode)), ShiftImm(LSR, 32)])
      && (U2(opcode >> 5) == 2 && U5(opcode >> 7) == 0 ==> shifter == [Reg(U4(opcode)), ShiftImm(ASR, 32)])
      && (U2(opcode >> 5) == 3 && U5(opcode >> 7) == 0 ==> shifter == [Reg(U4(opcode)), ShiftImm(RRX, 0)])
      && (U2(opcode >> 5) == 0 && U5(opcode >> 7) == 0 ==> shifter == [Reg(U4(opcode))])
  {
  }

  /** The normalisation of an immediate shift: a shift by zero is kept
      only as LSL; LSR and ASR become shifts by 32, ROR becomes RRX, and
      every other shift passes through. */
  lemma NormalizeShiftCases(shift: int, shiftImm: int)
    requires 0 <= shift < 4 && 0 <= shiftImm < 32
    ensures var (s, n) := NormalizeShift(shift, shiftImm);
      && (s == 4 <==> shift == 3 && shiftImm == 0)
      && (s != 4 ==> s == shift)
      && (n == 32 <==> (shift == 1 || shift == 2) && shiftImm == 0)
      && (n != 32 ==> n == shiftImm)
      && (n == 0 ==> s == 0 || s == 4)
  {
  }

  /** A single load/store with a register offset records the normalised
      shift, not the raw fields. */
  lemma LoadStoreRecordsNormalizedShift(opcode: bv32)
    requires (opcode & 0x0200_0000) != 0
    ensures EvaluateLoadStore(opcode).info.offset
      == RegOffset(U4(opcode), NormalizeShift(U2(opcode >> 5), U5(opcode >> 7)).0,
                   NormalizeShift(U2(opcode >> 5), U5(opcode >> 7)).1)
  {
  }

  /** The routing to evaluate_load_store: class 010, or class 011 with bit
      4 clear, outside the unconditional space. */
  predicate IsSingleLoadStore(opcode: bv32)
  {
    opcode >> 28 != 0xf
    && ((opcode & 0x0e00_0000) == 0x0400_0000
        || ((opcode & 0x0e00_0000) == 0x0600_0000 && (opcode & 0x10) == 0))
  }

  /** Classes 010 and 011 (with bit 4 clear) outside the unconditional
      space are single loads and stores. */
  lemma RoutesToLoadStore(opcode: bv32, address: bv32)
    requires IsSingleLoadStore(opcode)
    ensures ArmEvaluateOpcode(opcode, address).desc == EvaluateLoadStore(opcode)
  {
    assert (opcode & 0xf000_0000) != 0xf000_0000;
  }

  /** evaluate_load_store: the flag tables. */
  lemma LoadStoreDecoderFlags(opcode: bv32)
    ensures var d := EvaluateLoadStore(opcode);
      var P := opcode & 0x0100_0000 != 0;
      var W := opcode & 0x0020_0000 != 0;
      && d.info.LoadStore?
      && d.info.indexMode == (if P && !W then 0 else if P then 1 else 2)
      && (d.kind in {LDRT, STRT, LDRBT, STRBT} <==> !P && W)
      && (d.kind in {LDRB, STRB, LDRBT, STRBT} <==> opcode & 0x0040_0000 != 0)
      && (d.kind in {LDR, LDRB, LDRT, LDRBT} <==> opcode & 0x0010_0000 != 0)
      && (d.info.offset.OffsetMode() == 0 <==> opcode & 0x0200_0000 == 0)
      && d.info.U == U1(opcode >> 23)
  {
  }

  /** The single load/store flag tables: the index mode from P and W, the
      user-mode (T) forms exactly when P = 0 and W = 1, the byte forms
      exactly when B, the loads exactly when L, and an immediate offset
      exactly when I = 0. */
  lemma LoadStoreFlags(opcode: bv32, address: bv32)
    requires IsSingleLoadStore(opcode)
    ensures var d := ArmEvaluateOpcode(opcode, address).desc;
      var P := opcode & 0x0100_0000 != 0;
      var W := opcode & 0x0020_0000 != 0;
      && d.info.LoadStore?
      && d.info.indexMode == (if P && !W then 0 else if P then 1 else 2)
      && (d.kind in {LDRT, STRT, LDRBT, STRBT} <==> !P && W)
      && (d.kind in {LDRB, STRB, LDRBT, STRBT} <==> opcode & 0x0040_0000 != 0)
      && (d.kind in {LDR, LDRB, LDRT, LDRBT} <==> opcode & 0x0010_0000 != 0)
      && (d.info.offset.OffsetMode() == 0 <==> opcode & 0x0200_0000 == 0)
      && d.info.U == U1(opcode >> 23)
  {
    RoutesToLoadStore(opcode, address);
    LoadStoreDecoderFlags(opcode);
  }

  /** The routing to evaluate_misc_load_store: class 000 with bits 7 and 4
      set, other than the multiply/swap pattern 1001 in bits [7:4]. */
  predicate IsMiscLoadStore(opcode: bv32)
  {
    opcode >> 28 != 0xf
    && (opcode & 0x0e00_0000) == 0
    && (opcode & 0x90) == 0x90
    && (opcode & 0xf0) != 0x90
  }

  /** The miscellaneous load/store table: S = 0 gives LDRH/STRH; S = 1 with
      L gives LDRSH or LDRSB by H; S = 1 without L gives STRD or LDRD by
      H.  The immediate offset joins bits [11:8] and [3:0]. */
  lemma MiscLoadStoreTable(opcode: bv32, address: bv32)
    requires IsMiscLoadStore(opcode)
    ensures var d := ArmEvaluateOpcode(opcode, address).desc;
      var S := opcode & 0x40 != 0;
      var L := opcode & 0x0010_0000 != 0;
      var H := opcode & 0x20 != 0;
      && d.kind == (if !S then (if L then LDRH else STRH)
                    else if L then (if H then LDRSH else LDRSB)
                    else if H then STRD else LDRD)
      && d.info.LoadStore?
      && (opcode & 0x0040_0000 != 0 ==> d.info.offset == ImmOffset(((opcode & 0xf00) >> 4) | (opcode & 0xf)))
      && (opcode & 0x0040_0000 == 0 ==> d.info.offset == RegOffset(U4(opcode), 0, 0))
  {
    assert (opcode & 0xf000_0000) != 0xf000_0000;
  }

  /** The split immediate of a miscellaneous load/store is an 8-bit value. */
  lemma MiscLoadStoreImmediateBound(opcode: bv32)
    ensures ((opcode & 0xf00) >> 4) | (opcode & 0xf) < 0x100
  {
  }

  /** Class 100 outside the unconditional space is LDM/STM. */
  lemma RoutesToLdmStm(opcode: bv32, address: bv32)
    requires opcode >> 28 != 0xf && (opcode & 0x0e00_0000) == 0x0800_0000
    ensures ArmEvaluateOpcode(opcode, address).desc == EvaluateLdmStm(opcode)
  {
    assert (opcode & 0xf000_0000) != 0xf000_0000;
  }

  /** evaluate_ldm_stm: the type, the addressing mode from P and U and the
      unchanged register bitmask. */
  lemma LdmStmRecord(opcode: bv32)
    ensures var d := EvaluateLdmStm(opcode);
      var P := opcode & 0x0100_0000 != 0;
      var U := opcode & 0x0080_0000 != 0;
      && d.kind == (if opcode & 0x0010_0000 != 0 then LDM else STM)
      && d.info.LoadStoreMultiple?
      && d.info.addressingMode == (if !P && U then 0 else if P && U then 1 else if !P then 2 else 3)
      && d.info.registerList == opcode & 0xffff
  {
  }

  /** evaluate_ldm_stm: the rendered list names exactly the registers whose
      bits are set. */
  lemma LdmStmText(opcode: bv32, r: int)
    ensures var d := EvaluateLdmStm(opcode);
      && d.text.Asm? && |d.text.operands| == 2 && d.text.operands[1].RegList?
      && d.text.operands[1].regs == RegisterList(opcode & 0xffff)
      && (r in d.text.operands[1].regs <==> InList(opcode & 0xffff, r))
  {
    RegisterListMembers(opcode & 0xffff, r);
  }

  /** Load/store multiple: the addressing mode from P and U (IA 0, IB 1,
      DA 2, DB 3), the register list is the low halfword unchanged, and
      the rendered list names exactly its set bits. */
  lemma LdmStmModes(opcode: bv32, address: bv32, r: int)
    requires opcode >> 28 != 0xf && (opcode & 0x0e00_0000) == 0x0800_0000
    ensures var d := ArmEvaluateOpcode(opcode, address).desc;
      var P := opcode & 0x0100_0000 != 0;
      var U := opcode & 0x0080_0000 != 0;
      && d.kind == (if opcode & 0x0010_0000 != 0 then LDM else STM)
      && d.info.LoadStoreMultiple?
      && d.info.addressingMode == (if !P && U then 0 else if P && U then 1 else if !P then 2 else 3)
      && d.info.registerList == opcode & 0xffff
      && d.text.Asm? && |d.text.operands| == 2 && d.text.operands[1].RegList?
      && (r in d.text.operands[1].regs <==> InList(opcode & 0xffff, r))
  {
    RoutesToLdmStm(opcode, address);
    LdmStmRecord(opcode);
    LdmStmText(opcode, r);
  }

  /** With bit 23 set, ORing in 0xff000000 is the two's-complement reading
      of the 24-bit field. */
  lemma BranchImmediateNegative(opcode: bv32)
    requires opcode & 0x0080_0000 != 0
    ensures BranchImmediate(opcode) == SignedImm24(opcode)
  {
  }

  /** With bit 23 clear, the field is read unchanged. */
  lemma BranchImmediatePositive(opcode: bv32)
    requires opcode & 0x0080_0000 == 0
    ensures BranchImmediate(opcode) == SignedImm24(opcode)
  {
  }

  /** The OR-based sign extension of the branch field agrees with the
      two's-complement reading of the 24-bit field on every opcode. */
  lemma BranchImmediateSigned(opcode: bv32)
    ensures BranchImmediate(opcode) == SignedImm24(opcode)
  {
    if opcode & 0x0080_0000 != 0 {
      BranchImmediateNegative(opcode);
    } else {
      BranchImmediatePositive(opcode);
    }
  }

  /** The target a B/BL instruction at `address` reaches with the word
      offset `offset`. */
  function ArmTargetFrom(address: bv32, offset: bv32): bv32
  {
    address + 8 + (offset << 2)
  }

  /** The BLX(1) target: the halfword bit, when `h` holds, ORed into the
      scaled offset. */
  function BlxTargetFrom(address: bv32, offset: bv32, h: bool): bv32
  {
    address + 8 + (if h then (offset << 2) | 2 else offset << 2)
  }

  /** Bit 1 of a value shifted left by two is clear, so ORing in 2 adds 2. */
  lemma OrTwoAddsTwo(x: bv32)
    ensures (x << 2) | 2 == (x << 2) + 2
  {
  }

  /** The target evaluate_b_bl computes, before the offset is read as a
      signed number. */
  lemma BBlTargetUnsigned(opcode: bv32, address: bv32)
    ensures EvaluateBBl(opcode, address).info.targetAddress == ArmTargetFrom(address, BranchImmediate(opcode))
  {
  }

  /** evaluate_b_bl: a branch record with register operand -1, of type BL
      exactly when bit 24 is set. */
  lemma BBlKind(opcode: bv32, address: bv32)
    ensures EvaluateBBl(opcode, address).info.Branch?
    ensures EvaluateBBl(opcode, address).info.regOperand == -1
    ensures EvaluateBBl(opcode, address).kind == (if opcode & 0x0100_0000 != 0 then BL else B)
  {
  }

  /** evaluate_b_bl: the target is the fetch address plus 8 plus the
      sign-extended 24-bit field shifted left by two (times four, modulo
      2^32). */
  lemma BBlTarget(opcode: bv32, address: bv32)
    ensures EvaluateBBl(opcode, address).info.targetAddress == address + 8 + (SignedImm24(opcode) << 2)
  {
    BBlTargetUnsigned(opcode, address);
    BranchImmediateSigned(opcode);
  }

  /** The target evaluate_blx_imm computes, before the offset is read as a
      signed number. */
  lemma BlxImmTargetUnsigned(opcode: bv32, address: bv32)
    ensures EvaluateBlxImm(opcode, address).info.targetAddress
         == BlxTargetFrom(address, BranchImmediate(opcode), opcode & 0x0100_0000 != 0)
  {
  }

  /** evaluate_blx_imm: a BLX branch record with register operand -1. */
  lemma BlxImmKind(opcode: bv32, address: bv32)
    ensures EvaluateBlxImm(opcode, address).info.Branch?
    ensures EvaluateBlxImm(opcode, address).info.regOperand == -1
    ensures EvaluateBlxImm(opcode, address).kind == BLX
  {
  }

  lemma BlxImmTargetSigned(opcode: bv32, address: bv32)
    ensures EvaluateBlxImm(opcode, address).info.targetAddress
         == BlxTargetFrom(address, SignedImm24(opcode), opcode & 0x0100_0000 != 0)
  {
    BlxImmTargetUnsigned(opcode, address);
    BranchImmediateSigned(opcode);
  }

  /** evaluate_blx_imm: the B/BL offset, with 2 ORed in when the H bit
      (24) selects the second halfword (which adds 2, by OrTwoAddsTwo). */
  lemma BlxImmTarget(opcode: bv32, address: bv32)
    ensures EvaluateBlxImm(opcode, address).info.targetAddress
         == address + 8 + (if opcode & 0x0100_0000 != 0 then (SignedImm24(opcode) << 2) | 2
                           else SignedImm24(opcode) << 2)
  {
    BlxImmTargetSigned(opcode, address);
  }

  /** Class 101 outside the unconditional space is B/BL. */
  lemma RoutesToBBl(opcode: bv32, address: bv32)
    requires opcode >> 28 != 0xf && (opcode & 0x0e00_0000) == 0x0a00_0000
    ensures ArmEvaluateOpcode(opcode, address).desc == EvaluateBBl(opcode, address)
  {
    assert (opcode & 0xf000_0000) != 0xf000_0000;
  }

  /** The B/BL target: the fetch address plus 8 plus the sign-extended
      24-bit field shifted left by two, modulo 2^32.  BL exactly when bit 24 is
      set; the register operand is -1. */
  lemma BranchTarget(opcode: bv32, address: bv32)
    requires opcode >> 28 != 0xf && (opcode & 0x0e00_0000) == 0x0a00_0000
    ensures var d := ArmEvaluateOpcode(opcode, address).desc;
      && d.info.Branch? && d.info.regOperand == -1
      && d.info.targetAddress == address + 8 + (SignedImm24(opcode) << 2)
      && d.kind == (if opcode & 0x0100_0000 != 0 then BL else B)
  {
    RoutesToBBl(opcode, address);
    BBlKind(opcode, address);
    BBlTarget(opcode, address);
  }

  /** Class 101 in the unconditional space is BLX(1). */
  lemma RoutesToBlxImm(opcode: bv32, address: bv32)
    requires opcode >> 28 == 0xf && (opcode & 0x0e00_0000) == 0x0a00_0000
    ensures ArmEvaluateOpcode(opcode, address).desc == EvaluateBlxImm(opcode, address)
  {
    assert (opcode & 0xf000_0000) == 0xf000_0000;
  }

  /** BLX(1) in the unconditional space: the same target with the H bit
      selecting the second halfword (adding 2). */
  lemma BlxImmediateTarget(opcode: bv32, address: bv32)
    requires opcode >> 28 == 0xf && (opcode & 0x0e00_0000) == 0x0a00_0000
    ensures var d := ArmEvaluateOpcode(opcode, address).desc;
      && d.kind == BLX
      && d.info.Branch? && d.info.regOperand == -1
      && d.info.targetAddress
         == address + 8 + (if opcode & 0x0100_0000 != 0 then (SignedImm24(opcode) << 2) | 2
                           else SignedImm24(opcode) << 2)
  {
    RoutesToBlxImm(opcode, address);
    BlxImmKind(opcode, address);
    BlxImmTarget(opcode, address);
  }

  /** The MCRR/MRRC test compares against the MCRR pattern twice: MCRR
      decodes as MCRR, and an MRRC encoding (bit 20 set) as LDC. */
  lemma McrrMrrcPatterns(opcode: bv32, address: bv32)
    requires (opcode & 0x0e00_0000) == 0x0c00_0000
    ensures (opcode & 0x0ff0_0000) == 0x0c40_0000 ==> ArmEvaluateOpcode(opcode, address).desc.kind == MCRR
    ensures (opcode & 0x0ff0_0000) == 0x0c50_0000 ==> ArmEvaluateOpcode(opcode, address).desc.kind == LDC
  {
  }

  /** The LDC/STC offset is held in eight bits, so only the low six bits
      of imm8 survive the scaling by four. */
  lemma CoprocessorOffsetTruncated(opcode: bv32)
    ensures Low8((opcode & 0xff) << 2) == (opcode & 0x3f) << 2
  {
  }

  /** LDC p1, c0, [r0, #0x100] (imm8 = 0x40) is shown with offset 0. */
  lemma CoprocessorOffsetExample(address: bv32)
    ensures ArmEvaluateOpcode(0xED90_0140, address).desc.text
      == Asm("LDC", [Coproc(1), CReg(0), Mem(Reg(0), Offset, [Imm(0)])])
  {
  }

  /** MSR with an immediate shows imm8 unrotated, whatever bits [11:8]
      hold: the rotation is read into an eight-bit variable from a value
      whose low byte is zero. */
  lemma MsrImmediateUnrotated(opcode: bv32, address: bv32)
    requires opcode >> 28 != 0xf && (opcode & 0x0fb0_0000) == 0x0320_0000
    ensures var d := ArmEvaluateOpcode(opcode, address).desc;
      && d.kind == MSR
      && d.text.Asm? && |d.text.operands| == 2
      && d.text.operands[1] == Num((opcode & 0xff) as int)
  {
    assert (opcode & 0xf000_0000) != 0xf000_0000;
    assert Low8(opcode & 0xf00) == 0;
    RorByZero(opcode & 0xff);
  }

  /** evaluate_media sets the type only in the parallel add/subtract and
      extend groups; every other media instruction keeps the cleared
      type. */
  lemma MediaType(opcode: bv32)
    ensures EvaluateMedia(opcode).kind == Unknown
      <==> (opcode & 0x0180_0000) != 0 && (opcode & 0x0180_00f0) != 0x0080_0070
  {
  }

  /** In the SMMLA group only bits [7:6] = 00 decode; the other three
      values are shown as undefined. */
  lemma SmmlaAcceptance(opcode: bv32)
    requires (opcode & 0x0180_0000) != 0 && (opcode & 0x01f0_0000) == 0x0150_0000
    ensures EvaluateMedia(opcode).text == Asm("UNDEFINED", []) <==> (opcode & 0xc0) != 0
  {
  }

  /** The patterns of evaluate_misc_instr's blocks, in source order. */
  function MiscBlockPatterns(opcode: bv32): seq<bool>
  {
    [ (opcode & 0xf0) == 0,
      (opcode & 0x0060_00f0) == 0x0020_0010,
      (opcode & 0x0060_00f0) == 0x0020_0020,
      (opcode & 0x0060_00f0) == 0x0060_0010,
      (opcode & 0x0060_00f0) == 0x0020_0030,
      (opcode & 0xf0) == 0x50,
      (opcode & 0xf0) == 0x70,
      (opcode & 0x90) == 0x80 ]
  }

  /** The blocks of evaluate_misc_instr never overlap: although later
      blocks could overwrite earlier ones, at most one matches. */
  lemma MiscBlocksExclusive(opcode: bv32, i: int, j: int)
    requires 0 <= i < j < 8
    ensures !(MiscBlockPatterns(opcode)[i] && MiscBlockPatterns(opcode)[j])
  {
  }

  /** As written, the SMLAW/SMULW (bits [22:21] = 01) and SMUL (11) tests
      never fire: the descriptor passes through unchanged. */
  lemma DspMultiplyAsWrittenSkips(opcode: bv32, d: Descriptor)
    requires (opcode & 0x0020_0000) != 0
    ensures EvaluateDspMultiplyAsWritten(opcode, d) == d
  {
  }

  /** SMLAWB r0, r0, r0, r0 (0xE1200080) as written decodes to nothing:
      type and text stay cleared. */
  lemma DspMultiplyAsWrittenExample()
    ensures EvaluateDspMultiplyAsWritten(0xE120_0080, ArmCleared(0xE120_0080)) == ArmCleared(0xE120_0080)
    ensures EvaluateDspMultiply(0xE120_0080, ArmCleared(0xE120_0080)).kind == SMLAWy
  {
  }

  /** With the operation field compared against values it can hold, every
      encoding in the DSP multiply space gets a DSP multiply type and a
      text, and the two readings agree wherever the written tests fire. */
  lemma DspMultiplyDecodesAll(opcode: bv32, d: Descriptor)
    ensures EvaluateDspMultiply(opcode, d).kind in {SMLAxy, SMLAWy, SMULxy, SMULWy}
    ensures EvaluateDspMultiply(opcode, d).text.Asm?
    ensures (opcode & 0x0020_0000) == 0 ==> EvaluateDspMultiply(opcode, d) == EvaluateDspMultiplyAsWritten(opcode, d)
  {
  }

  /** Words of the miscellaneous space (class 000, bits [24:23] = 10,
      bit 20 clear, not a multiply/extra load-store) reach
      evaluate_misc_instr. */
  lemma RoutesToMiscInstr(opcode: bv32, address: bv32)
    requires opcode >> 28 != 0xf && (opcode & 0x0e00_0000) == 0
    requires (opcode & 0x90) != 0x90 && (opcode & 0x0f90_0000) == 0x0100_0000
    ensures ArmEvaluateOpcode(opcode, address).desc == EvaluateMiscInstr(opcode)
  {
    assert (opcode & 0xf000_0000) != 0xf000_0000;
  }

  /** In the DSP multiply space (bit 7 set, bit 4 clear) none of the
      earlier miscellaneous tests match. */
  lemma MiscTestsSkipDsp(opcode: bv32)
    requires (opcode & 0x90) == 0x80
    ensures MiscInstrTests(opcode) == ArmCleared(opcode)
  {
  }

  /** As decoded from the entry point, every SMLAW/SMULW/SMUL word (bit 21
      set) in the miscellaneous space keeps the cleared type and text. */
  lemma DspMultiplyEntryAsWritten(opcode: bv32, address: bv32)
    requires opcode >> 28 != 0xf && (opcode & 0x0f90_0090) == 0x0100_0080
    requires (opcode & 0x0020_0000) != 0
    ensures ArmEvaluateOpcode(opcode, address).desc == ArmCleared(opcode)
  {
    RoutesToMiscInstr(opcode, address);
    MiscTestsSkipDsp(opcode);
    DspMultiplyAsWrittenSkips(opcode, ArmCleared(opcode));
  }

  /** SMLAWB r0, r0, r0, r0 at any address decodes to the cleared
      descriptor. */
  lemma DspMultiplyEntryExample(address: bv32)
    ensures ArmEvaluateOpcode(0xE120_0080, address).desc == ArmCleared(0xE120_0080)
  {
    DspMultiplyEntryAsWritten(0xE120_0080, address);
  }

  /** With the comparisons corrected, every word of the DSP multiply space
      gets a DSP multiply type and a text. */
  lemma MiscInstrCorrectedDsp(opcode: bv32)
    requires (opcode & 0x90) == 0x80
    ensures EvaluateMiscInstrCorrected(opcode).kind in {SMLAxy, SMLAWy, SMULxy, SMULWy}
    ensures EvaluateMiscInstrCorrected(opcode).text.Asm?
  {
    DspMultiplyDecodesAll(opcode, MiscInstrTests(opcode));
  }

  // ---------------------------------------------------------------------
  // The unconditional space: undefined, PLD, SRS/RFE.
  // ---------------------------------------------------------------------

  /** Condition 1111 with bits [27:24] = 1111 is undefined. */
  lemma UnconditionalUndefined(opcode: bv32, address: bv32)
    requires opcode >> 28 == 0xf && (opcode & 0x0f00_0000) == 0x0f00_0000
    ensures var d := ArmEvaluateOpcode(opcode, address).desc;
      d.kind == Undefined && d.text == Asm("UNDEFINED INSTRUCTION", []) && d.info == NoInfo
  {
    assert (opcode & 0xf000_0000) == 0xf000_0000;
  }

  /** Condition 1111 with bit 27 clear reaches evaluate_pld. */
  lemma RoutesToPld(opcode: bv32, address: bv32)
    requires opcode >> 28 == 0xf && (opcode & 0x0800_0000) == 0
    ensures ArmEvaluateOpcode(opcode, address).desc == EvaluatePld(opcode)
  {
    assert (opcode & 0xf000_0000) == 0xf000_0000;
  }

  /** PLD exactly for the preload pattern (bits 27:26 = 01, bit 24 set,
      bits 22:20 = 101, Rd = 1111); every other word is undefined. */
  lemma PldFields(opcode: bv32)
    ensures var d := EvaluatePld(opcode);
      && (d.kind == PLD <==> (opcode & 0x0d70_f000) == 0x0550_f000)
      && (d.kind == Undefined <==> (opcode & 0x0d70_f000) != 0x0550_f000)
      && d.info == NoInfo
  {
  }

  /** Condition 1111 with bits [27:25] = 100 reaches evaluate_srs. */
  lemma RoutesToSrs(opcode: bv32, address: bv32)
    requires opcode >> 28 == 0xf && (opcode & 0x0e00_0000) == 0x0800_0000
    ensures ArmEvaluateOpcode(opcode, address).desc == EvaluateSrs(opcode)
  {
    assert (opcode & 0xf000_0000) == 0xf000_0000;
  }

  /** SRS for the group 1000 x1x0 0, RFE for 1000 x0x1, undefined
      otherwise.  Both keep the cleared type; the mode suffix comes from P
      and U (DA, IA shown as nothing, DB, IB) and the first operand is
      written back exactly when W (bit 21) is set. */
  lemma SrsFields(opcode: bv32)
    ensures var d := EvaluateSrs(opcode);
      var group := opcode & 0x0e50_0000;
      var mode := ["DA", "", "DB", "IB"][U2(opcode >> 23)];
      && (d.kind == Undefined <==> group != 0x0840_0000 && group != 0x0810_0000)
      && (group == 0x0840_0000 ==> d.kind == Unknown && d.text.Asm? && d.text.mnemonic == "SRS" + mode)
      && (group == 0x0810_0000 ==> d.kind == Unknown && d.text.Asm? && d.text.mnemonic == "RFE" + mode)
      && d.info == NoInfo
  {
  }

  lemma SrsWriteBack(opcode: bv32)
    requires (opcode & 0x0e50_0000) == 0x0840_0000 || (opcode & 0x0e50_0000) == 0x0810_0000
    ensures var d := EvaluateSrs(opcode);
      d.text.Asm? && |d.text.operands| >= 1
      && (d.text.operands[0].WriteBack? <==> (opcode & 0x0020_0000) != 0)
  {
  }

  // ---------------------------------------------------------------------
  // SWI and the coprocessor register transfers.
  // ---------------------------------------------------------------------

  /** A conditional word with bits [27:24] = 1111 reaches evaluate_swi. */
  lemma RoutesToSwi(opcode: bv32, address: bv32)
    requires opcode >> 28 != 0xf && (opcode & 0x0f00_0000) == 0x0f00_0000
    ensures ArmEvaluateOpcode(opcode, address).desc == EvaluateSwi(opcode)
  {
    assert (opcode & 0xf000_0000) != 0xf000_0000;
  }

  /** SVC takes its number from the low 24 bits alone: two words that
      agree there show the same text. */
  lemma SwiFields(opcode: bv32, other: bv32)
    requires (opcode & 0x00ff_ffff) == (other & 0x00ff_ffff)
    ensures var d := EvaluateSwi(opcode);
      && d.kind == SWI && d.info == NoInfo
      && d.text.Asm? && d.text.mnemonic == "SVC"
      && d.text == EvaluateSwi(other).text
  {
  }

  /** Encoding SVC #n (always condition) and decoding it gives n back. */
  lemma SwiRoundTrip(n: bv32)
    requires n < 0x100_0000
    ensures EvaluateSwi(0xef00_0000 | n).text == Asm("SVC", [Num(n as int)])
  {
    assert (0xef00_0000 | n) & 0x00ff_ffff == n;
  }

  /** A conditional word with bits [27:24] = 1110 reaches
      evaluate_cdp_mcr_mrc, whatever bit 4 holds. */
  lemma RoutesToCdpMcrMrc(opcode: bv32, address: bv32)
    requires opcode >> 28 != 0xf && (opcode & 0x0f00_0000) == 0x0e00_0000
    ensures ArmEvaluateOpcode(opcode, address).desc == EvaluateCdpMcrMrc(opcode)
  {
    assert (opcode & 0xf000_0000) != 0xf000_0000;
  }

  /** CDP exactly when bit 4 is clear; otherwise MRC exactly when bit 20
      (L) is set, MCR when it is clear.  The coprocessor number is bits
      [11:8], CRm bits [3:0] and opcode2 bits [7:5]. */
  lemma CdpMcrMrcFields(opcode: bv32)
    ensures var d := EvaluateCdpMcrMrc(opcode);
      var bit4 := (opcode & 0x10) != 0;
      var L := (opcode & 0x0010_0000) != 0;
      && (d.kind == CDP <==> !bit4)
      && (d.kind == MRC <==> bit4 && L)
      && (d.kind == MCR <==> bit4 && !L)
      && d.text.Asm? && |d.text.operands| == 6
      && d.text.operands[0] == Coproc(U4(opcode >> 8))
      && d.text.operands[4] == CReg(U4(opcode))
      && d.text.operands[5] == Num(U3(opcode >> 5))
      && d.info == NoInfo
  {
  }

  // ---------------------------------------------------------------------
  // Multiplies, swaps and the extra loads and stores.
  // ---------------------------------------------------------------------

  /** Class 000 with bits 7 and 4 both set reaches
      evaluate_mul_and_extra_ld_st. */
  lemma RoutesToMulAndExtraLdSt(opcode: bv32, address: bv32)
    requires opcode >> 28 != 0xf && (opcode & 0x0e00_0000) == 0 && (opcode & 0x90) == 0x90
    ensures ArmEvaluateOpcode(opcode, address).desc == EvaluateMulAndExtraLdSt(opcode)
  {
    assert (opcode & 0xf000_0000) != 0xf000_0000;
  }

  /** With bits [7:4] = 1001: bits [27:23] = 00000 give MLA exactly when
      bit 21 (A) is set, else MUL; 00001 give UMULL, UMLAL, SMULL, SMLAL by
      bits [22:21]; 00010 give SWPB exactly when bit 22 is set, else SWP. */
  lemma MultiplySwapKinds(opcode: bv32)
    requires (opcode & 0xf0) == 0x90
    ensures var d := EvaluateMulAndExtraLdSt(opcode);
      var group := opcode & 0x0f80_0000;
      && (group == 0 ==>
            (d.kind == MLA <==> (opcode & 0x0020_0000) != 0) && (d.kind == MUL <==> (opcode & 0x0020_0000) == 0))
      && (group == 0x0080_0000 ==> d.kind == [UMULL, UMLAL, SMULL, SMLAL][U2(opcode >> 21)])
      && (group == 0x0100_0000 ==>
            (d.kind == SWPB <==> (opcode & 0x0040_0000) != 0) && (d.kind == SWP <==> (opcode & 0x0040_0000) == 0))
  {
  }

  /** Everything else in this space is a miscellaneous load/store. */
  lemma MulAndExtraLdStElse(opcode: bv32)
    requires (opcode & 0xf0) != 0x90 || (opcode & 0x0f80_0000) !in {0, 0x0080_0000, 0x0100_0000}
    ensures EvaluateMulAndExtraLdSt(opcode) == EvaluateMiscLoadStore(opcode)
  {
  }

  // ---------------------------------------------------------------------
  // The media extend and parallel add/subtract groups.
  // ---------------------------------------------------------------------

  /** Class 011 with bit 4 set, other than the permanently undefined
      pattern, reaches evaluate_media. */
  lemma RoutesToMedia(opcode: bv32, address: bv32)
    requires opcode >> 28 != 0xf && (opcode & 0x0e00_0000) == 0x0600_0000
    requires (opcode & 0x10) != 0 && (opcode & 0x07f0_00f0) != 0x07f0_00f0
    ensures ArmEvaluateOpcode(opcode, address).desc == EvaluateMedia(opcode)
  {
    assert (opcode & 0xf000_0000) != 0xf000_0000;
  }

  /** evaluate_media hands bits [24:23] = 00 to the parallel add/subtract
      routine and the 01 xxxx 0111 pattern to the extend routine, and
      takes the type and text from them. */
  lemma MediaDelegates(opcode: bv32)
    ensures (opcode & 0x0180_0000) == 0 ==>
      EvaluateMedia(opcode).kind == EvaluatePAddSub(opcode).0 && EvaluateMedia(opcode).text == EvaluatePAddSub(opcode).1
    ensures (opcode & 0x0180_00f0) == 0x0080_0070 ==>
      EvaluateMedia(opcode).kind == EvaluateExtend(opcode).0 && EvaluateMedia(opcode).text == EvaluateExtend(opcode).1
  {
  }

  /** The extend forms: the destination is bits [15:12] and the source
      bits [3:0]; Rn = 1111 gives the plain extend (a MOV), any other Rn the
      extend-and-add (an ADD); U exactly when bit 22 is set; a non-zero
      rotation field appends ROR by 8, 16 or 24. */
  lemma ExtendFields(opcode: bv32)
    requires (opcode >> 24) & 0x3 != 1
    ensures var (kind, text) := EvaluateExtend(opcode);
      var rot := U2(opcode >> 10);
      var plain := U4(opcode >> 16) == 0xf;
      && (kind == MOV <==> plain) && (kind == ADD <==> !plain)
      && text.Asm? && |text.mnemonic| > 0 && (text.mnemonic[0] == 'U' <==> (opcode & 0x0040_0000) != 0)
      && text.operands[0] == Reg(U4(opcode >> 12))
      && |text.operands| == (if plain then 2 else 3) + (if rot == 0 then 0 else 1)
      && text.operands[(if plain then 1 else 2)] == Reg(U4(opcode))
      && (rot != 0 ==> text.operands[|text.operands| - 1] == ShiftImm(ROR, 8 * rot))
  {
  }

  /** The extend text for a width selector other than 01: U or S by bit
      22, XT for Rn = 1111 and XTA otherwise, the width B16, B or H, then
      the condition. */
  lemma ExtendFormMnemonic(opcode: bv32, size: bv32)
    requires size < 4 && size != 1
    ensures var text := ExtendForm(opcode, size).1;
      && text.Asm?
      && text.mnemonic == (if (opcode & 0x0040_0000) != 0 then "U" else "S")
                          + (if U4(opcode >> 16) == 0xf then "XT" else "XTA")
                          + ["B16", "", "B", "H"][size] + Cond(opcode)
  {
  }

  /** The media dispatch reaches evaluate_extend only with bits [25:24] =
      10 (bit 25 from class 011, bit 24 clear from its own test). */
  lemma ExtendGateFixesWidth(opcode: bv32)
    requires (opcode & 0x0e00_0000) == 0x0600_0000 && (opcode & 0x0180_00f0) == 0x0080_0070
    ensures (opcode >> 24) & 0x3 == 2
  {
  }

  /** As written, every ARM extend decoded from the entry point is a MOV or
      an ADD, never undefined, and its mnemonic carries the width B
      whatever bits [21:20] select. */
  lemma ExtendEntryAsWritten(opcode: bv32, address: bv32)
    requires opcode >> 28 != 0xf
    requires (opcode & 0x0e00_0000) == 0x0600_0000 && (opcode & 0x0180_00f0) == 0x0080_0070
    ensures var d := ArmEvaluateOpcode(opcode, address).desc;
      && d.kind != Undefined && d.kind in {MOV, ADD}
      && d.text.Asm?
      && d.text.mnemonic == (if (opcode & 0x0040_0000) != 0 then "U" else "S")
                            + (if U4(opcode >> 16) == 0xf then "XT" else "XTA")
                            + "B" + Cond(opcode)
  {
    assert (opcode & 0x10) != 0 && (opcode & 0x07f0_00f0) != 0x07f0_00f0;
    RoutesToMedia(opcode, address);
    MediaDelegates(opcode);
    ExtendGateFixesWidth(opcode);
    ExtendFormMnemonic(opcode, 2);
  }

  /** SXTH r0, r0 (0xE6BF0070) is shown as SXTB r0, r0. */
  lemma ExtendEntryExample(address: bv32)
    ensures ArmEvaluateOpcode(0xE6BF_0070, address).desc.text == Asm("SXTB", [Reg(0), Reg(0)])
  {
    ExtendEntryAsWritten(0xE6BF_0070, address);
    MediaDelegates(0xE6BF_0070);
  }

  /** With the width read from bits [21:20], the extend forms carry the
      width their encoding selects: B16 for 00, B for 10, H for 11. */
  lemma ExtendCorrectedWidth(opcode: bv32)
    requires (opcode >> 20) & 0x3 != 1
    ensures var text := EvaluateExtendCorrected(opcode).1;
      && text.Asm?
      && text.mnemonic == (if (opcode & 0x0040_0000) != 0 then "U" else "S")
                          + (if U4(opcode >> 16) == 0xf then "XT" else "XTA")
                          + ["B16", "", "B", "H"][(opcode >> 20) & 0x3] + Cond(opcode)
  {
    ExtendFormMnemonic(opcode, (opcode >> 20) & 0x3);
  }

  /** Corrected, SXTH r0, r0 (0xE6BF0070) is shown as SXTH r0, r0. */
  lemma ExtendCorrectedExample()
    ensures EvaluateExtendCorrected(0xE6BF_0070) == (MOV, Asm("SXTH", [Reg(0), Reg(0)]))
  {
    var opcode: bv32 := 0xE6BF_0070;
    assert Cond(opcode) == "";
    assert "S" + "XT" + "H" + "" == "SXTH";
    assert [Reg(0), Reg(0)] + [] == [Reg(0), Reg(0)];
  }

  /** The parallel add/subtract forms that decode: ADD exactly for the
      operations 000, 001 and 100 of bits [7:5], SUB for 010, 011 and 111;
      the registers are Rd, Rn and Rm of bits [15:12], [19:16] and [3:0]. */
  lemma PAddSubFields(opcode: bv32)
    requires EvaluatePAddSub(opcode).0 != Undefined
    ensures var (kind, text) := EvaluatePAddSub(opcode);
      var op := U3(opcode >> 5);
      && (kind == ADD <==> op in {0, 1, 4})
      && (kind == SUB <==> op in {2, 3, 7})
      && text.Asm? && text.operands == [Reg(U4(opcode >> 12)), Reg(U4(opcode >> 16)), Reg(U4(opcode))]
  {
  }
}
