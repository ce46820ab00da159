/**
 * What the Thumb decoder guarantees: the branch targets and their sign
 * extension, the literal-load address, the PUSH/POP and LDM/STM register
 * lists, the S flag of the data-processing forms, the register branches
 * and the IT condition field.
 */
module ThumbProperties {
  import opened DisasmTypes
  import opened DisasmCommon
  import opened ThumbDecoder

  // ---------------------------------------------------------------------
  // Routing: which routine thumb_evaluate_opcode hands a halfword to.
  // ---------------------------------------------------------------------

  /** 1101 xxxx: the conditional branch (and SVC / undefined) routine. */
  lemma RoutesToCondBranch(opcode: bv16, address: bv32)
    requires (opcode as bv32) & 0xf000 == 0xd000
    ensures ThumbEvaluateOpcode(opcode, address).desc == EvaluateCondBranchThumb(opcode, address)
  {
  }

  /** 111x xxxx, except the undefined 11101 pattern with bit 0 set: the
      B / BL / BLX routine. */
  lemma RoutesToBBlBlx(opcode: bv16, address: bv32)
    requires (opcode as bv32) & 0xe000 == 0xe000 && (opcode as bv32) & 0xf801 != 0xe801
    ensures ThumbEvaluateOpcode(opcode, address).desc == EvaluateBBlBlxThumb(opcode, address)
  {
  }

  /** 01001 xxx: the PC-relative literal load. */
  lemma RoutesToLoadLiteral(opcode: bv16, address: bv32)
    requires (opcode as bv32) & 0xf800 == 0x4800
    ensures ThumbEvaluateOpcode(opcode, address).desc == EvaluateLoadLiteralThumb(opcode, address)
  {
  }

  /** 010000 / 010001: the ALU and high-register operations. */
  lemma RoutesToDataProc(opcode: bv16, address: bv32)
    requires (opcode as bv32) & 0xf800 == 0x4000
    ensures ThumbEvaluateOpcode(opcode, address).desc == EvaluateDataProcThumb(opcode)
  {
  }

  /** 1100 xxxx: the generic LDM/STM. */
  lemma RoutesToLoadStoreMultiple(opcode: bv16, address: bv32)
    requires (opcode as bv32) & 0xf000 == 0xc000
    ensures ThumbEvaluateOpcode(opcode, address).desc == EvaluateLoadStoreMultipleThumb(opcode)
  {
  }

  /** 1011 xxxx: the miscellaneous group. */
  lemma RoutesToMisc(opcode: bv16, address: bv32)
    requires (opcode as bv32) & 0xf000 == 0xb000
    ensures ThumbEvaluateOpcode(opcode, address).desc == EvaluateMiscThumb(opcode, address)
  {
  }

  lemma MiscPushPop(opcode: bv16, address: bv32)
    requires (opcode as bv32) & 0xf600 == 0xb400
    ensures EvaluateMiscThumb(opcode, address) == EvaluateLoadStoreMultipleThumb(opcode)
  {
    var w := opcode as bv32;
    assert U4(w >> 8) in {0x4, 0x5, 0xc, 0xd};
  }

  /** 1011 x10x: PUSH and POP, through the miscellaneous group. */
  lemma RoutesToPushPop(opcode: bv16, address: bv32)
    requires (opcode as bv32) & 0xf600 == 0xb400
    ensures ThumbEvaluateOpcode(opcode, address).desc == EvaluateLoadStoreMultipleThumb(opcode)
  {
    RoutesToMisc(opcode, address);
    MiscPushPop(opcode, address);
  }

  /** 1011 1111 with a non-zero mask: IT, through the miscellaneous group. */
  lemma RoutesToIfThen(opcode: bv16, address: bv32)
    requires (opcode as bv32) & 0xff00 == 0xbf00 && (opcode as bv32) & 0xf != 0
    ensures ThumbEvaluateOpcode(opcode, address).desc == EvaluateIfThenThumb(opcode)
  {
    RoutesToMisc(opcode, address);
    assert U4((opcode as bv32) >> 8) == 0xf;
  }

  /** 00011 xx: ADDS/SUBS with a register or a 3-bit immediate. */
  lemma RoutesToAddSub(opcode: bv16, address: bv32)
    requires (opcode as bv32) & 0xf800 == 0x1800
    ensures ThumbEvaluateOpcode(opcode, address).desc == EvaluateAddSubThumb(opcode)
  {
  }

  /** 000 xx, bits [12:11] other than 11: the immediate shifts. */
  lemma RoutesToShiftImm(opcode: bv16, address: bv32)
    requires (opcode as bv32) & 0xe000 == 0 && (opcode as bv32) & 0x1800 != 0x1800
    ensures ThumbEvaluateOpcode(opcode, address).desc == EvaluateShiftImmThumb(opcode)
  {
  }

  /** 001 xx: MOVS/CMP/ADDS/SUBS with an 8-bit immediate. */
  lemma RoutesToDataProcImm(opcode: bv16, address: bv32)
    requires (opcode as bv32) & 0xe000 == 0x2000
    ensures ThumbEvaluateOpcode(opcode, address).desc == EvaluateDataProcImmThumb(opcode)
  {
  }

  /** 0101 xxx: the register-offset loads and stores. */
  lemma RoutesToLoadStoreReg(opcode: bv16, address: bv32)
    requires (opcode as bv32) & 0xf000 == 0x5000
    ensures ThumbEvaluateOpcode(opcode, address).desc == EvaluateLoadStoreRegThumb(opcode)
  {
  }

  /** 011 xx and 1000 x: the immediate-offset word, byte and halfword
      loads and stores. */
  lemma RoutesToLoadStoreImm(opcode: bv16, address: bv32)
    requires (opcode as bv32) & 0xe000 == 0x6000 || (opcode as bv32) & 0xf000 == 0x8000
    ensures ThumbEvaluateOpcode(opcode, address).desc == EvaluateLoadStoreImmThumb(opcode)
  {
  }

  /** 1001 x: the SP-relative loads and stores. */
  lemma RoutesToLoadStoreStack(opcode: bv16, address: bv32)
    requires (opcode as bv32) & 0xf000 == 0x9000
    ensures ThumbEvaluateOpcode(opcode, address).desc == EvaluateLoadStoreStackThumb(opcode)
  {
  }

  /** 1010 x: ADD Rd, SP/PC, #imm. */
  lemma RoutesToAddSpPc(opcode: bv16, address: bv32)
    requires (opcode as bv32) & 0xf000 == 0xa000
    ensures ThumbEvaluateOpcode(opcode, address).desc == EvaluateAddSpPcThumb(opcode)
  {
  }

  /** The routine the miscellaneous group picks for each value of bits
      [11:8] (and, for 1010 and 1111, bits [7:6] and [3:0]). */
  lemma MiscRouting(opcode: bv16, address: bv32)
    ensures var w := opcode as bv32;
      var d := EvaluateMiscThumb(opcode, address);
      var sel := U4(w >> 8);
      && (sel == 0x0 ==> d == EvaluateAdjustStackThumb(opcode))
      && (sel in {0x1, 0x3, 0x9, 0xb} ==> d == EvaluateCbThumb(opcode, address))
      && (sel == 0x2 ==> d == EvaluateExtendThumb(opcode))
      && (sel == 0x6 ==> d == EvaluateCpsThumb(opcode))
      && (sel == 0xa && w & 0xc0 != 0x80 ==> d == EvaluateByterevThumb(opcode))
      && (sel == 0xe ==> d == EvaluateBreakpointThumb(opcode))
      && (sel == 0xf && w & 0xf == 0 ==> d == EvaluateHintThumb(opcode))
  {
  }

  /** The holes of the miscellaneous group (bits [11:8] = 0111 or 1000,
      and 1010 with bits [7:6] = 10) decode as undefined. */
  lemma MiscUndefined(opcode: bv16, address: bv32)
    requires var w := opcode as bv32;
      w & 0xf000 == 0xb000 && (U4(w >> 8) in {0x7, 0x8} || (U4(w >> 8) == 0xa && w & 0xc0 == 0x80))
    ensures var d := ThumbEvaluateOpcode(opcode, address).desc;
      d.kind == Undefined && d.text == Asm("UNDEFINED INSTRUCTION", []) && d.info == NoInfo
  {
    RoutesToMisc(opcode, address);
  }

  // ---------------------------------------------------------------------
  // Shifts, add/subtract and immediate data processing.
  // ---------------------------------------------------------------------

  /** ADDS/SUBS: SUB exactly when bit 9 is set, the flags always set, Rd
      and Rn from bits [2:0] and [5:3], and bit 10 choosing the 3-bit
      immediate over the register Rm of bits [8:6]. */
  lemma AddSubFields(opcode: bv16)
    ensures var w := opcode as bv32;
      var d := EvaluateAddSubThumb(opcode);
      && (d.kind == SUB <==> w & 0x200 != 0)
      && (d.kind == ADD <==> w & 0x200 == 0)
      && d.info.DataProc? && d.info.S == 1
      && d.info.Rd == U3(w) && d.info.Rn == U3(w >> 3)
      && (d.info.operand.Immediate? <==> w & 0x400 != 0)
      && (d.info.operand.Immediate? ==> d.info.operand.immediate as int == U3(w >> 6))
      && (d.info.operand.ImmediateShift? ==> d.info.operand == ImmediateShift(U3(w >> 6), 0, 0))
  {
  }

  /** LSLS/LSRS/ASRS #imm: a flag-setting MOV of Rm (bits [5:3]) into Rd
      (bits [2:0]), shifted by the kind of bits [12:11]; a zero amount means
      32 for LSR and ASR. */
  lemma ShiftImmFields(opcode: bv16)
    requires U2((opcode as bv32) >> 11) != 3
    ensures var w := opcode as bv32;
      var d := EvaluateShiftImmThumb(opcode);
      var opc := U2(w >> 11);
      var amount := if U5(w >> 6) == 0 && opc != 0 then 32 else U5(w >> 6);
      && d.kind == MOV
      && d.info == DataProc(U3(w), -1, 1, ImmediateShift(U3(w >> 3), opc, amount))
  {
  }

  /** The immediate shifts are named by bits [12:11]: LSLS, LSRS, ASRS. */
  lemma ShiftImmMnemonic(opcode: bv16)
    requires U2((opcode as bv32) >> 11) != 3
    ensures var d := EvaluateShiftImmThumb(opcode);
      var opc := U2((opcode as bv32) >> 11);
      && d.text.Asm?
      && (d.text.mnemonic == "LSLS" <==> opc == 0)
      && (d.text.mnemonic == "LSRS" <==> opc == 1)
      && (d.text.mnemonic == "ASRS" <==> opc == 2)
  {
  }

  /** MOVS/CMP/ADDS/SUBS #imm8: the operation of bits [12:11], the register
      of bits [10:8] and the zero-extended immediate; MOVS records no Rn
      and CMP no Rd. */
  lemma DataProcImmFields(opcode: bv16)
    ensures var w := opcode as bv32;
      var d := EvaluateDataProcImmThumb(opcode);
      && d.kind == [MOV, CMP, ADD, SUB][U2(w >> 11)]
      && d.text.Asm? && d.text.operands == [Reg(U3(w >> 8)), Imm(U8(w))]
      && d.info.DataProc? && d.info.S == 1 && d.info.operand == Immediate(w & 0xff)
      && (d.info.Rd == -1 <==> d.kind == CMP)
      && (d.info.Rn == -1 <==> d.kind == MOV)
  {
  }

  // ---------------------------------------------------------------------
  // Single loads and stores.
  // ---------------------------------------------------------------------

  /** The register-offset transfers: the operation of bits [11:9] (the
      stores are 000-010, LDRSB is 011), with Rd, Rn and Rm of bits [2:0],
      [5:3] and [8:6] and an offset addressing mode. */
  lemma LoadStoreRegFields(opcode: bv16)
    ensures var w := opcode as bv32;
      var d := EvaluateLoadStoreRegThumb(opcode);
      && d.kind == [STR, STRH, STRB, LDRSB, LDR, LDRH, LDRB, LDRSH][U3(w >> 9)]
      && d.info == LoadStore(U3(w), U3(w >> 3), 0, 0, RegOffset(U3(w >> 6), 0, 0))
  {
  }

  /** The scale of a Thumb immediate-offset transfer: 2 for the halfword
      group (1000), 1 for the byte forms (bit 12), 4 for words. */
  function ImmScale(w: bv32): int
  {
    if w & 0xf000 == 0x8000 then 2 else if w & 0x1000 != 0 then 1 else 4
  }

  /** The immediate-offset transfers: LDR exactly when bit 11 is set, the
      H or B suffix by group, and the 5-bit offset of bits [10:6] scaled by
      the access size. */
  lemma LoadStoreImmFields(opcode: bv16)
    requires (opcode as bv32) & 0xe000 == 0x6000 || (opcode as bv32) & 0xf000 == 0x8000
    ensures var w := opcode as bv32;
      var d := EvaluateLoadStoreImmThumb(opcode);
      && (d.kind == LDR <==> w & 0x800 != 0)
      && (d.kind == STR <==> w & 0x800 == 0)
      && d.text.Asm? && |d.text.operands| == 2
      && d.text.operands[1] == Mem(Reg(U3(w >> 3)), Offset, [Imm(U5(w >> 6) * ImmScale(w))])
      && d.info.LoadStore? && d.info.Rd == U3(w) && d.info.Rn == U3(w >> 3)
  {
  }

  /** The immediate-offset mnemonic: LDR or STR by bit 11, with an H
      suffix exactly for the halfword group and a B suffix exactly for
      the byte forms, the same split that scales the offset. */
  lemma LoadStoreImmMnemonic(opcode: bv16)
    requires (opcode as bv32) & 0xe000 == 0x6000 || (opcode as bv32) & 0xf000 == 0x8000
    ensures var w := opcode as bv32;
      var m := EvaluateLoadStoreImmThumb(opcode).text.mnemonic;
      && |m| >= 3 && m[..3] == (if w & 0x800 != 0 then "LDR" else "STR")
      && (|m| == 4 <==> ImmScale(w) != 4)
      && (|m| == 4 ==> m[3] == (if ImmScale(w) == 2 then 'H' else 'B'))
  {
  }

  /** The SP-relative transfers: LDR exactly when bit 11 is set, Rd of
      bits [10:8], base SP (13) and the 8-bit offset scaled by 4. */
  lemma LoadStoreStackFields(opcode: bv16)
    ensures var w := opcode as bv32;
      var d := EvaluateLoadStoreStackThumb(opcode);
      && (d.kind == LDR <==> w & 0x800 != 0)
      && (d.kind == STR <==> w & 0x800 == 0)
      && d.text.Asm? && d.text.operands == [Reg(U3(w >> 8)), Mem(Named("SP"), Offset, [Imm(U8(w) * 4)])]
      && d.info.LoadStore? && d.info.Rd == U3(w >> 8) && d.info.Rn == 13
  {
  }

  // ---------------------------------------------------------------------
  // SP and PC arithmetic.
  // ---------------------------------------------------------------------

  /** ADD Rd, SP/PC, #imm8*4: SP (13) exactly when bit 11 is set, else PC
      (15), the flags untouched. */
  lemma AddSpPcFields(opcode: bv16)
    ensures var w := opcode as bv32;
      var d := EvaluateAddSpPcThumb(opcode);
      && d.kind == ADD
      && d.text.Asm? && d.text.operands[2] == Imm(U8(w) * 4)
      && d.info.DataProc? && d.info.Rd == U3(w >> 8) && d.info.S == 0
      && (d.info.Rn == 13 <==> w & 0x800 != 0)
      && (d.info.Rn == 15 <==> w & 0x800 == 0)
  {
  }

  /** ADD/SUB SP, #imm7*4: SUB exactly when bit 7 is set; SP is both the
      destination and the base. */
  lemma AdjustStackFields(opcode: bv16)
    ensures var w := opcode as bv32;
      var d := EvaluateAdjustStackThumb(opcode);
      && (d.kind == SUB <==> w & 0x80 != 0)
      && (d.kind == ADD <==> w & 0x80 == 0)
      && d.text.Asm? && d.text.operands == [Named("SP"), Imm((w & 0x7f) as bv7 as int * 4)]
      && d.info.DataProc? && d.info.Rd == 13 && d.info.Rn == 13 && d.info.S == 0
  {
  }

  /** SP adjustment through the entry point (1011 0000). */
  lemma ThumbAdjustStack(opcode: bv16, address: bv32)
    requires (opcode as bv32) & 0xff00 == 0xb000
    ensures var d := ThumbEvaluateOpcode(opcode, address).desc;
      && (d.kind == SUB <==> (opcode as bv32) & 0x80 != 0)
      && d.info.DataProc? && d.info.Rd == 13 && d.info.Rn == 13
  {
    RoutesToMisc(opcode, address);
    MiscRouting(opcode, address);
    assert U4((opcode as bv32) >> 8) == 0;
    AdjustStackFields(opcode);
  }

  // ---------------------------------------------------------------------
  // The text-only miscellaneous forms.
  // ---------------------------------------------------------------------

  /** BKPT: the 8-bit comment field of bits [7:0] as its only operand. */
  lemma BreakpointFields(opcode: bv16)
    ensures var d := EvaluateBreakpointThumb(opcode);
      && d.kind == BKPT && d.info == NoInfo
      && d.text == Asm("BKPT", [Num(U8(opcode as bv32))])
  {
  }

  /** CBZ/CBNZ: CBNZ exactly when bit 11 is set, the register of bits
      [2:0], and a branch target (CbTarget says which). */
  lemma CbFields(opcode: bv16, address: bv32)
    ensures var w := opcode as bv32;
      var d := EvaluateCbThumb(opcode, address);
      && d.kind == Unknown && d.info == NoInfo
      && d.text.Asm? && |d.text.operands| == 2 && d.text.operands[0] == Reg(U3(w))
      && (d.text.mnemonic == "CBNZ" <==> w & 0x800 != 0)
      && (d.text.mnemonic == "CBZ" <==> w & 0x800 == 0)
      && d.text.operands[1].Target?
  {
  }

  /** The CBZ/CBNZ target: the fetch address plus 4 plus twice the
      zero-extended offset, so the branch only goes forward. */
  lemma CbTarget(opcode: bv16, address: bv32)
    ensures EvaluateCbThumb(opcode, address).text.operands[1]
      == Target(ThumbTargetFrom(address, CbOffsetThumb(opcode as bv32)))
  {
  }

  /** The CBZ/CBNZ offset is i:imm5, the 5-bit field of bits [7:3] plus
      32 for bit 9: never negative, at most 63 halfwords, and zero exactly
      when bit 9 and bits [7:3] are. */
  lemma CbOffsetRange(w: bv32)
    ensures CbOffsetThumb(w) as int == U5(w >> 3) + (if w & 0x200 != 0 then 32 else 0)
    ensures CbOffsetThumb(w) <= 63
    ensures CbOffsetThumb(w) == 0 <==> w & 0x2f8 == 0
  {
  }

  /** SXTH/SXTB/UXTH/UXTB by bits [7:6], Rd of bits [2:0], Rm of [5:3]. */
  lemma ExtendThumbFields(opcode: bv16)
    ensures var w := opcode as bv32;
      var d := EvaluateExtendThumb(opcode);
      && d.kind == Unknown && d.info == NoInfo
      && d.text == Asm(["SXTH", "SXTB", "UXTH", "UXTB"][U2(w >> 6)], [Reg(U3(w)), Reg(U3(w >> 3))])
  {
  }

  /** SETEND exactly for bits [11:4] = 0110 0101; otherwise CPSID exactly
      when bit 4 is set and CPSIE when it is clear, with one named
      operand. */
  lemma CpsFields(opcode: bv16)
    ensures var w := opcode as bv32;
      var d := EvaluateCpsThumb(opcode);
      && d.kind == Unknown && d.info == NoInfo
      && d.text.Asm? && |d.text.operands| == 1 && d.text.operands[0].Named?
      && (d.text.mnemonic == "SETEND" <==> w & 0x0ff0 == 0x0650)
      && (d.text.mnemonic == "CPSID" <==> w & 0x0ff0 != 0x0650 && w & 0x10 != 0)
      && (d.text.mnemonic == "CPSIE" <==> w & 0x0ff0 != 0x0650 && w & 0x10 == 0)
  {
    assert "CPSID"[0] != "SETEND"[0] && "CPSIE"[0] != "SETEND"[0];
    assert "CPSID"[4] != "CPSIE"[4];
  }

  /** The flag letters CPSIE/CPSID names: A, I and F for bits 2, 1, 0. */
  lemma CpsFlags(opcode: bv16)
    requires (opcode as bv32) & 0x0ff0 != 0x0650
    ensures var w := opcode as bv32;
      var name := EvaluateCpsThumb(opcode).text.operands[0].name;
      && ('A' in name <==> w & 0x4 != 0)
      && ('I' in name <==> w & 0x2 != 0)
      && ('F' in name <==> w & 0x1 != 0)
      && |name| <= 3
  {
  }

  /** REV/REV16/REVSH by bits [7:6] (10 is undefined at dispatch), Rd of
      bits [2:0], Rm of [5:3]. */
  lemma ByterevFields(opcode: bv16)
    requires (opcode as bv32) & 0xc0 != 0x80
    ensures var w := opcode as bv32;
      var d := EvaluateByterevThumb(opcode);
      && d.kind == Unknown && d.info == NoInfo
      && d.text == Asm(["REV", "REV16", "", "REVSH"][U2(w >> 6)], [Reg(U3(w)), Reg(U3(w >> 3))])
  {
  }

  /** The hints NOP, YIELD, WFE, WFI and SEV for bits [7:4] = 0-4, and an
      unrecognized hint otherwise; no operands. */
  lemma HintFields(opcode: bv16)
    ensures var w := opcode as bv32;
      var d := EvaluateHintThumb(opcode);
      var h := U4(w >> 4);
      && d.kind == Unknown && d.info == NoInfo
      && d.text.Asm? && d.text.operands == []
      && (h < 5 ==> d.text.mnemonic == ["NOP", "YIELD", "WFE", "WFI", "SEV"][h])
      && (h >= 5 <==> d.text.mnemonic == "HINT (UNRECOGNIZED)")
  {
  }

  // ---------------------------------------------------------------------
  // Conditional branch.
  // ---------------------------------------------------------------------

  /** The target a Thumb branch at `address` reaches with the halfword
      offset `offset`. */
  function ThumbTargetFrom(address: bv32, offset: bv32): bv32
  {
    address + 4 + (offset << 1)
  }

  /** The OR-based extension of the 8-bit field is its two's-complement
      reading. */
  lemma CondBranchOffsetSigned(w: bv32)
    ensures CondBranchOffsetThumb(w) == SignedImm8(w)
  {
  }

  lemma CondBranchTargetUnsigned(opcode: bv16, address: bv32)
    requires ((opcode as bv32) >> 8) & 0xf < 0xe
    ensures EvaluateCondBranchThumb(opcode, address).info.targetAddress
         == ThumbTargetFrom(address, CondBranchOffsetThumb(opcode as bv32))
  {
  }

  lemma CondBranchTargetSigned(opcode: bv16, address: bv32)
    requires ((opcode as bv32) >> 8) & 0xf < 0xe
    ensures EvaluateCondBranchThumb(opcode, address).info.targetAddress
         == ThumbTargetFrom(address, SignedImm8(opcode as bv32))
  {
    CondBranchTargetUnsigned(opcode, address);
    CondBranchOffsetSigned(opcode as bv32);
  }

  /** A conditional branch (condition below 1110) is a B whose mnemonic
      carries the condition of bits [11:8], with no register operand. */
  lemma CondBranchKind(opcode: bv16, address: bv32)
    requires ((opcode as bv32) >> 8) & 0xf < 0xe
    ensures var d := EvaluateCondBranchThumb(opcode, address);
      && d.kind == B
      && d.info.Branch? && d.info.regOperand == -1
      && d.text.Asm? && d.text.mnemonic == "B" + ConditionStrings[((opcode as bv32) >> 8) & 0xf]
  {
  }

  /** The conditional-branch target: the address plus 4 plus the
      sign-extended 8-bit field shifted left by one (times two). */
  lemma CondBranchTarget(opcode: bv16, address: bv32)
    requires ((opcode as bv32) >> 8) & 0xf < 0xe
    ensures EvaluateCondBranchThumb(opcode, address).info.targetAddress
         == address + 4 + (SignedImm8(opcode as bv32) << 1)
  {
    CondBranchTargetSigned(opcode, address);
  }

  /** Condition 1111 is SVC with the 8-bit immediate, 1110 is undefined;
      neither sets a branch record. */
  lemma CondBranchSvcUndefined(opcode: bv16, address: bv32)
    requires ((opcode as bv32) >> 8) & 0xf >= 0xe
    ensures var d := EvaluateCondBranchThumb(opcode, address);
      var svc := ((opcode as bv32) >> 8) & 0xf == 0xf;
      && d.kind == (if svc then SWI else Undefined)
      && d.text == (if svc then Asm("SVC", [Num(U8(opcode as bv32))]) else Asm("UNDEFINED INSTRUCTION", []))
      && d.info == NoInfo
  {
  }

  /** The whole conditional-branch group as thumb_evaluate_opcode decodes
      it. */
  lemma ThumbCondBranch(opcode: bv16, address: bv32)
    requires (opcode as bv32) & 0xf000 == 0xd000
    ensures var d := ThumbEvaluateOpcode(opcode, address).desc;
      var cond := ((opcode as bv32) >> 8) & 0xf;
      && (cond == 0xf ==> d.kind == SWI)
      && (cond == 0xe ==> d.kind == Undefined)
      && (cond < 0xe ==> d.kind == B && d.info.Branch?
                         && d.info.targetAddress == address + 4 + (SignedImm8(opcode as bv32) << 1))
  {
    RoutesToCondBranch(opcode, address);
    if ((opcode as bv32) >> 8) & 0xf < 0xe {
      CondBranchKind(opcode, address);
      CondBranchTarget(opcode, address);
    } else {
      CondBranchSvcUndefined(opcode, address);
    }
  }

  // ---------------------------------------------------------------------
  // Unconditional branch, BL and BLX (two-halfword forms).
  // ---------------------------------------------------------------------

  /** The opc field, bits [12:11], of a B / BL / BLX halfword. */
  function BranchOpc(opcode: bv16): bv32
  {
    ((opcode as bv32) >> 11) & 0x3
  }

  /** For B and the BL/BLX prefix the OR-based extension of the 11-bit
      field is its two's-complement reading. */
  lemma BranchOffsetSigned(w: bv32)
    requires (w >> 11) & 0x3 == 0 || (w >> 11) & 0x3 == 2
    ensures BranchOffsetThumb(w) == SignedImm11(w)
  {
  }

  /** For the BL and BLX suffixes the field is not extended. */
  lemma BranchOffsetUnsigned(w: bv32)
    requires (w >> 11) & 0x3 == 1 || (w >> 11) & 0x3 == 3
    ensures BranchOffsetThumb(w) == w & 0x7ff
  {
  }

  /** The type and register operand of each form: B, BLX, the prefix
      (which reports the cleared type) and BL; the register operand is -1
      throughout. */
  lemma BBlBlxKind(opcode: bv16, address: bv32)
    ensures var d := EvaluateBBlBlxThumb(opcode, address);
      && d.kind == [B, BLX, Unknown, BL][BranchOpc(opcode)]
      && d.info.Branch? && d.info.regOperand == -1
  {
  }

  lemma BBlBlxTargetUnsigned(opcode: bv16, address: bv32)
    requires BranchOpc(opcode) == 0 || BranchOpc(opcode) == 3
    ensures EvaluateBBlBlxThumb(opcode, address).info.targetAddress
         == ThumbTargetFrom(address, BranchOffsetThumb(opcode as bv32))
  {
  }

  lemma ThumbBTargetSigned(opcode: bv16, address: bv32)
    requires BranchOpc(opcode) == 0
    ensures EvaluateBBlBlxThumb(opcode, address).info.targetAddress
         == ThumbTargetFrom(address, SignedImm11(opcode as bv32))
  {
    BBlBlxTargetUnsigned(opcode, address);
    BranchOffsetSigned(opcode as bv32);
  }

  /** B: the address plus 4 plus the sign-extended 11-bit field shifted
      left by one (times two). */
  lemma ThumbBTarget(opcode: bv16, address: bv32)
    requires BranchOpc(opcode) == 0
    ensures EvaluateBBlBlxThumb(opcode, address).info.targetAddress
         == address + 4 + (SignedImm11(opcode as bv32) << 1)
  {
    ThumbBTargetSigned(opcode, address);
  }

  lemma ThumbBlTargetPlain(opcode: bv16, address: bv32)
    requires BranchOpc(opcode) == 3
    ensures EvaluateBBlBlxThumb(opcode, address).info.targetAddress
         == ThumbTargetFrom(address, (opcode as bv32) & 0x7ff)
  {
    BBlBlxTargetUnsigned(opcode, address);
    BranchOffsetUnsigned(opcode as bv32);
  }

  /** BL suffix: the 11-bit field is added unsigned, doubled. */
  lemma ThumbBlTarget(opcode: bv16, address: bv32)
    requires BranchOpc(opcode) == 3
    ensures EvaluateBBlBlxThumb(opcode, address).info.targetAddress
         == address + 4 + (((opcode as bv32) & 0x7ff) << 1)
  {
    ThumbBlTargetPlain(opcode, address);
  }

  lemma BlxSuffixTargetUnsigned(opcode: bv16, address: bv32)
    requires BranchOpc(opcode) == 1
    ensures EvaluateBBlBlxThumb(opcode, address).info.targetAddress
         == WordAlign(ThumbTargetFrom(address, BranchOffsetThumb(opcode as bv32)))
  {
  }

  lemma BlxSuffixTargetPlain(opcode: bv16, address: bv32)
    requires BranchOpc(opcode) == 1
    ensures EvaluateBBlBlxThumb(opcode, address).info.targetAddress
         == WordAlign(ThumbTargetFrom(address, (opcode as bv32) & 0x7ff))
  {
    BlxSuffixTargetUnsigned(opcode, address);
    BranchOffsetUnsigned(opcode as bv32);
  }

  /** BLX suffix: the unsigned target rounded down to a word (so a multiple
      of 4, at most 3 below the unaligned one). */
  lemma BlxSuffixTarget(opcode: bv16, address: bv32)
    requires BranchOpc(opcode) == 1
    ensures EvaluateBBlBlxThumb(opcode, address).info.targetAddress
         == WordAlign(address + 4 + (((opcode as bv32) & 0x7ff) << 1))
  {
    BlxSuffixTargetPlain(opcode, address);
  }

  /** BL/BLX prefix: the recorded value is the sign-extended 11-bit field
      shifted left by twelve, independent of the address. */
  lemma PrefixTarget(opcode: bv16, address: bv32)
    requires BranchOpc(opcode) == 2
    ensures EvaluateBBlBlxThumb(opcode, address).info.targetAddress
         == SignedImm11(opcode as bv32) << 12
  {
  }

  /** Thumb B / BL / BLX through the entry point: each form's type and
      target. */
  lemma ThumbBranches(opcode: bv16, address: bv32)
    requires (opcode as bv32) & 0xe000 == 0xe000 && (opcode as bv32) & 0xf801 != 0xe801
    ensures var d := ThumbEvaluateOpcode(opcode, address).desc;
      var w := opcode as bv32;
      && d.info.Branch? && d.info.regOperand == -1
      && (BranchOpc(opcode) == 0 ==> d.kind == B && d.info.targetAddress == address + 4 + (SignedImm11(w) << 1))
      && (BranchOpc(opcode) == 1 ==> d.kind == BLX && d.info.targetAddress == WordAlign(address + 4 + ((w & 0x7ff) << 1)))
      && (BranchOpc(opcode) == 2 ==> d.kind == Unknown && d.info.targetAddress == SignedImm11(w) << 12)
      && (BranchOpc(opcode) == 3 ==> d.kind == BL && d.info.targetAddress == address + 4 + ((w & 0x7ff) << 1))
  {
    RoutesToBBlBlx(opcode, address);
    BBlBlxKind(opcode, address);
    var opc := BranchOpc(opcode);
    if opc == 0 {
      ThumbBTarget(opcode, address);
    } else if opc == 1 {
      BlxSuffixTarget(opcode, address);
    } else if opc == 2 {
      PrefixTarget(opcode, address);
    } else {
      ThumbBlTarget(opcode, address);
    }
  }

  // ---------------------------------------------------------------------
  // PC-relative literal load.
  // ---------------------------------------------------------------------

  /** LDR Rd, [pc, #imm8*4]: the record has base 15, U = 0, offset mode 0
      and the scaled immediate, at most 1020. */
  lemma LoadLiteralRecord(opcode: bv16, address: bv32)
    ensures var d := EvaluateLoadLiteralThumb(opcode, address);
      var w := opcode as bv32;
      && d.kind == LDR
      && d.info.LoadStore? && d.info.Rd == U3(w >> 8) && d.info.Rn == 15
      && d.info.U == 0 && d.info.indexMode == 0
      && d.info.offset.OffsetMode() == 0 && d.info.offset.offset == (w & 0xff) << 2
      && d.info.offset.offset <= 1020
  {
  }

  /** The address the literal comment shows: the aligned PC (the fetch
      address plus 4 rounded down to a word) plus the scaled immediate. */
  lemma LoadLiteralTarget(opcode: bv16, address: bv32)
    ensures var d := EvaluateLoadLiteralThumb(opcode, address);
      && d.text.Asm? && |d.text.operands| == 3
      && d.text.operands[2] == Remark("", [Target(ThumbAlignPc4(address) + (opcode as bv32 & 0xff) * 4)])
  {
  }

  /** The shown target is word-aligned, since both the aligned PC and the
      scaled immediate are. */
  lemma LoadLiteralTargetAligned(opcode: bv16, address: bv32)
    ensures var d := EvaluateLoadLiteralThumb(opcode, address);
      d.text.Asm? && |d.text.operands| == 3 && d.text.operands[2].Remark?
      && |d.text.operands[2].operands| == 1 && d.text.operands[2].operands[0].Target?
      && d.text.operands[2].operands[0].address & 3 == 0
  {
    var a := ThumbAlignPc4(address);
    var i := (opcode as bv32 & 0xff) * 4;
    assert i & 3 == 0;
    AlignedSum(a, i);
  }

  lemma AlignedSum(a: bv32, b: bv32)
    requires a & 3 == 0 && b & 3 == 0
    ensures (a + b) & 3 == 0
  {
  }

  // ---------------------------------------------------------------------
  // LDM / STM, PUSH and POP.
  // ---------------------------------------------------------------------

  lemma BitOr(a: bv32, b: bv32, k: bv32)
    requires k < 32
    ensures ((a | b) >> k) & 1 == 1 <==> (a >> k) & 1 == 1 || (b >> k) & 1 == 1
  {
  }

  /** Membership in the low byte of a mask. */
  lemma InListLow(w: bv32, r: int)
    ensures InList(w & 0xff, r) <==> r < 8 && InList(w, r)
  {
  }

  /** The source's test of bit `b` of the list is membership of `b`. */
  lemma BitIsInList(list: bv32, b: bv32)
    requires b < 8
    ensures (list & (1 << b) != 0) == InList(list & 0xff, U3(b))
  {
  }

  /** Generic LDM/STM: increment-after on the 3-bit base, with the 8-bit
      list recorded as is. */
  lemma LoadStoreMultipleRecord(opcode: bv16)
    requires (opcode as bv32) & 0xf000 == 0xc000
    ensures var d := EvaluateLoadStoreMultipleThumb(opcode);
      var w := opcode as bv32;
      && d.kind == (if w & 0x800 != 0 then LDM else STM)
      && d.info == LoadStoreMultiple(U3(w >> 8), w & 0xff, 0, 0, 0)
      && d.text.Asm? && |d.text.operands| == 2
      && d.text.operands[1] == RegList(RegisterList(w & 0xff), false)
  {
  }

  lemma LoadStoreMultipleBaseBit(opcode: bv16)
    requires (opcode as bv32) & 0xf000 == 0xc000
    ensures var d := EvaluateLoadStoreMultipleThumb(opcode);
      var w := opcode as bv32;
      d.text.Asm? && |d.text.operands| == 2
      && (d.text.operands[0].WriteBack? <==> !(w & 0x800 != 0 && (w & (1 << ((w >> 8) & 0x7))) != 0))
  {
  }

  /** Write-back is shown unless an LDM loads its own base; an STM always
      writes back. */
  lemma LoadStoreMultipleWriteBack(opcode: bv16)
    requires (opcode as bv32) & 0xf000 == 0xc000
    ensures var d := EvaluateLoadStoreMultipleThumb(opcode);
      var w := opcode as bv32;
      d.text.Asm? && |d.text.operands| == 2
      && (d.text.operands[0].WriteBack? <==> !(w & 0x800 != 0 && InList(w & 0xff, U3(w >> 8))))
  {
    var w := opcode as bv32;
    LoadStoreMultipleBaseBit(opcode);
    BitIsInList(w, (w >> 8) & 0x7);
    assert U3((w >> 8) & 0x7) == U3(w >> 8);
  }

  /** PUSH: a decrement-before (mode 3) store on SP. */
  lemma PushRecord(opcode: bv16)
    requires (opcode as bv32) & 0xfe00 == 0xb400
    ensures var d := EvaluateLoadStoreMultipleThumb(opcode);
      && d.kind == STM
      && d.info.LoadStoreMultiple? && d.info.Rn == 13 && d.info.addressingMode == 3
      && d.text == Asm("PUSH", [RegList(RegisterList(d.info.registerList), false)])
  {
  }

  /** The list PUSH records: the low byte, plus LR with the R bit. */
  function PushList(w: bv32): bv32
  {
    if w & 0x100 != 0 then (w & 0xff) | 0x4000 else w & 0xff
  }

  /** The list POP records: the low byte, plus PC with the R bit. */
  function PopList(w: bv32): bv32
  {
    if w & 0x100 != 0 then (w & 0xff) | 0x8000 else w & 0xff
  }

  lemma PushListWithR(w: bv32)
    requires w & 0x100 != 0
    ensures PushList(w) == (w & 0xff) | 0x4000
  {
  }

  lemma PushListWithoutR(w: bv32)
    requires w & 0x100 == 0
    ensures PushList(w) == w & 0xff
  {
  }

  lemma InListWith14(low: bv32, r: int)
    ensures InList(low | 0x4000, r) <==> InList(low, r) || r == 14
  {
    if 0 <= r < 16 {
      BitOr(low, 0x4000, r as bv32);
    }
  }

  lemma PushListMembers(w: bv32, r: int)
    ensures InList(PushList(w), r) <==> (r < 8 && InList(w, r)) || (r == 14 && w & 0x100 != 0)
  {
    InListLow(w, r);
    if w & 0x100 != 0 {
      PushListWithR(w);
      InListWith14(w & 0xff, r);
    } else {
      PushListWithoutR(w);
    }
  }

  lemma PopListWithR(w: bv32)
    requires w & 0x100 != 0
    ensures PopList(w) == (w & 0xff) | 0x8000
  {
  }

  lemma PopListWithoutR(w: bv32)
    requires w & 0x100 == 0
    ensures PopList(w) == w & 0xff
  {
  }

  lemma InListWith15(low: bv32, r: int)
    ensures InList(low | 0x8000, r) <==> InList(low, r) || r == 15
  {
    if 0 <= r < 16 {
      BitOr(low, 0x8000, r as bv32);
    }
  }

  lemma PopListMembers(w: bv32, r: int)
    ensures InList(PopList(w), r) <==> (r < 8 && InList(w, r)) || (r == 15 && w & 0x100 != 0)
  {
    InListLow(w, r);
    if w & 0x100 != 0 {
      PopListWithR(w);
      InListWith15(w & 0xff, r);
    } else {
      PopListWithoutR(w);
    }
  }

  lemma PushListValue(opcode: bv16)
    requires (opcode as bv32) & 0xfe00 == 0xb400
    ensures var w := opcode as bv32;
      EvaluateLoadStoreMultipleThumb(opcode).info.registerList == PushList(w)
  {
  }

  /** PUSH names the low registers of the 8-bit list, and LR exactly when
      the R bit is set. */
  lemma PushMembers(opcode: bv16, r: int)
    requires (opcode as bv32) & 0xfe00 == 0xb400
    ensures InList(EvaluateLoadStoreMultipleThumb(opcode).info.registerList, r)
        <==> (r < 8 && InList(opcode as bv32, r)) || (r == 14 && (opcode as bv32) & 0x100 != 0)
  {
    PushListValue(opcode);
    PushListMembers(opcode as bv32, r);
  }

  /** POP: an increment-after (mode 0) load on SP. */
  lemma PopRecord(opcode: bv16)
    requires (opcode as bv32) & 0xfe00 == 0xbc00
    ensures var d := EvaluateLoadStoreMultipleThumb(opcode);
      && d.kind == LDM
      && d.info.LoadStoreMultiple? && d.info.Rn == 13 && d.info.addressingMode == 0
      && d.text == Asm("POP", [RegList(RegisterList(d.info.registerList), false)])
  {
  }

  lemma PopListValue(opcode: bv16)
    requires (opcode as bv32) & 0xfe00 == 0xbc00
    ensures var w := opcode as bv32;
      EvaluateLoadStoreMultipleThumb(opcode).info.registerList == PopList(w)
  {
  }

  /** POP names the low registers of the 8-bit list, and PC exactly when
      the R bit is set. */
  lemma PopMembers(opcode: bv16, r: int)
    requires (opcode as bv32) & 0xfe00 == 0xbc00
    ensures InList(EvaluateLoadStoreMultipleThumb(opcode).info.registerList, r)
        <==> (r < 8 && InList(opcode as bv32, r)) || (r == 15 && (opcode as bv32) & 0x100 != 0)
  {
    PopListValue(opcode);
    PopListMembers(opcode as bv32, r);
  }

  /** The PUSH text lists exactly the registers the halfword names. */
  lemma PushRendered(opcode: bv16, r: int)
    requires (opcode as bv32) & 0xfe00 == 0xb400
    ensures var d := EvaluateLoadStoreMultipleThumb(opcode);
      && d.kind == STM && d.info.LoadStoreMultiple? && d.info.addressingMode == 3
      && d.text.Asm? && |d.text.operands| == 1 && d.text.operands[0].RegList?
      && (r in d.text.operands[0].regs <==> (r < 8 && InList(opcode as bv32, r)) || (r == 14 && (opcode as bv32) & 0x100 != 0))
  {
    PushRecord(opcode);
    PushMembers(opcode, r);
    RegisterListMembers(EvaluateLoadStoreMultipleThumb(opcode).info.registerList, r);
  }

  /** PUSH through the entry point: the rendered list holds exactly the
      registers the halfword names, LR included with the R bit. */
  lemma ThumbPush(opcode: bv16, address: bv32, r: int)
    requires (opcode as bv32) & 0xfe00 == 0xb400
    ensures var d := ThumbEvaluateOpcode(opcode, address).desc;
      && d.kind == STM && d.info.LoadStoreMultiple? && d.info.addressingMode == 3
      && d.text.Asm? && |d.text.operands| == 1 && d.text.operands[0].RegList?
      && (r in d.text.operands[0].regs <==> (r < 8 && InList(opcode as bv32, r)) || (r == 14 && (opcode as bv32) & 0x100 != 0))
  {
    RoutesToPushPop(opcode, address);
    PushRendered(opcode, r);
  }

  /** The POP text lists exactly the registers the halfword names. */
  lemma PopRendered(opcode: bv16, r: int)
    requires (opcode as bv32) & 0xfe00 == 0xbc00
    ensures var d := EvaluateLoadStoreMultipleThumb(opcode);
      && d.kind == LDM && d.info.LoadStoreMultiple? && d.info.addressingMode == 0
      && d.text.Asm? && |d.text.operands| == 1 && d.text.operands[0].RegList?
      && (r in d.text.operands[0].regs <==> (r < 8 && InList(opcode as bv32, r)) || (r == 15 && (opcode as bv32) & 0x100 != 0))
  {
    PopRecord(opcode);
    PopMembers(opcode, r);
    RegisterListMembers(EvaluateLoadStoreMultipleThumb(opcode).info.registerList, r);
  }

  /** POP through the entry point: the rendered list holds exactly the
      registers the halfword names, PC included with the R bit. */
  lemma ThumbPop(opcode: bv16, address: bv32, r: int)
    requires (opcode as bv32) & 0xfe00 == 0xbc00
    ensures var d := ThumbEvaluateOpcode(opcode, address).desc;
      && d.kind == LDM && d.info.LoadStoreMultiple? && d.info.addressingMode == 0
      && d.text.Asm? && |d.text.operands| == 1 && d.text.operands[0].RegList?
      && (r in d.text.operands[0].regs <==> (r < 8 && InList(opcode as bv32, r)) || (r == 15 && (opcode as bv32) & 0x100 != 0))
  {
    RoutesToPushPop(opcode, address);
    PopRendered(opcode, r);
  }

  /** Generic LDM/STM through the entry point. */
  lemma ThumbLoadStoreMultiple(opcode: bv16, address: bv32)
    requires (opcode as bv32) & 0xf000 == 0xc000
    ensures var d := ThumbEvaluateOpcode(opcode, address).desc;
      var w := opcode as bv32;
      && d.info == LoadStoreMultiple(U3(w >> 8), w & 0xff, 0, 0, 0)
      && d.text.Asm? && |d.text.operands| == 2
      && (d.text.operands[0].WriteBack? <==> !(w & 0x800 != 0 && InList(w & 0xff, U3(w >> 8))))
  {
    RoutesToLoadStoreMultiple(opcode, address);
    LoadStoreMultipleRecord(opcode);
    LoadStoreMultipleWriteBack(opcode);
  }

  // ---------------------------------------------------------------------
  // ALU and high-register operations.
  // ---------------------------------------------------------------------

  /** The low-register ALU forms set the flags: S is 1 and Rd is bits
      [2:0]. */
  lemma DataProcLowS(opcode: bv16)
    requires (opcode as bv32) & 0xfc00 == 0x4000
    ensures var d := EvaluateDataProcThumb(opcode);
      d.info.DataProc? && d.info.S == 1 && d.info.Rd == U3(opcode as bv32)
  {
  }

  /** The low-register ALU forms, op of bits [9:6]: the type and
      mnemonic of each op, with the two low registers as the text's
      operands.  The four shifts are typed MOV, and TST, CMP and CMN are
      the only mnemonics without the S suffix. */
  lemma ThumbAluKinds(opcode: bv16)
    requires (opcode as bv32) & 0xfc00 == 0x4000
    ensures var w := opcode as bv32;
      var d := EvaluateDataProcThumb(opcode);
      var op := U4(w >> 6);
      && d.kind == [AND, EOR, MOV, MOV, MOV, ADC, SBC, MOV, TST, RSB, CMP, CMN, ORR, MUL, BIC, MVN][op]
      && d.text == Asm(["ANDS", "EORS", "LSLS", "LSRS", "ASRS", "ADCS", "SBCS", "RORS",
                        "TST", "RSBS", "CMP", "CMN", "ORRS", "MULS", "BICS", "MVNS"][op],
                       [Reg(U3(w)), Reg(U3(w >> 3))])
  {
  }

  /** A low-register ALU op is a MOV exactly for the four register
      shifts, and its mnemonic ends in S exactly when it is not one of
      the comparisons TST, CMP and CMN. */
  lemma ThumbAluMoveAndFlags(opcode: bv16)
    requires (opcode as bv32) & 0xfc00 == 0x4000
    ensures var d := EvaluateDataProcThumb(opcode);
      var op := U4((opcode as bv32) >> 6);
      && (d.kind == MOV <==> op in {2, 3, 4, 7})
      && d.text.Asm? && |d.text.mnemonic| > 0
      && (d.text.mnemonic[|d.text.mnemonic| - 1] == 'S' <==> op !in {8, 10, 11})
  {
    ThumbAluKinds(opcode);
  }

  /** The low-register ALU records: the shifts record a register shift of
      Rd (bits [2:0]) by Rm (bits [5:3]) with kind LSL, LSR, ASR or ROR;
      RSBS records Rn = Rm and the immediate 0; every other op records
      Rn = Rd and Rm unshifted.  Rd is bits [2:0] and S is 1 throughout. */
  lemma ThumbAluRecords(opcode: bv16)
    requires (opcode as bv32) & 0xfc00 == 0x4000
    ensures var w := opcode as bv32;
      var d := EvaluateDataProcThumb(opcode);
      var op := U4(w >> 6);
      var Rd := U3(w);
      var Rm := U3(w >> 3);
      && (op in {2, 3, 4, 7} ==>
            d.info == DataProc(Rd, Rd, 1, RegisterShift(Rd, if op == 7 then 3 else op - 2, Rm)))
      && (op == 9 ==> d.info == DataProc(Rd, Rm, 1, Immediate(0)))
      && (op !in {2, 3, 4, 7, 9} ==> d.info == DataProc(Rd, Rd, 1, ImmediateShift(Rm, 0, 0)))
  {
  }

  /** The high-register ADD, CMP and MOV record S = 0, CMP included: S is
      computed from the type the cleared descriptor holds, not from CMP. */
  lemma DataProcHighS(opcode: bv16)
    requires (opcode as bv32) & 0xfc00 == 0x4400 && (opcode as bv32) & 0x0300 != 0x0300
    ensures var d := EvaluateDataProcThumb(opcode);
      && d.kind == [ADD, CMP, MOV][((opcode as bv32) >> 8) & 0x3]
      && d.info.DataProc? && d.info.S == 0
  {
  }

  /** BX / BLX on a register: the 4-bit register of bits [6:3] is the
      register operand and the target stays 0. */
  lemma DataProcBranchExchange(opcode: bv16)
    requires (opcode as bv32) & 0xff07 == 0x4700
    ensures var d := EvaluateDataProcThumb(opcode);
      && d.kind == (if (opcode as bv32) & 0x80 != 0 then BLX else BX)
      && d.info == Branch(U4((opcode as bv32) >> 3), 0)
  {
  }

  /** A high-register MOV of a register to itself is shown as NOP. */
  lemma DataProcNop(opcode: bv16)
    requires (opcode as bv32) & 0xff00 == 0x4600
    ensures var d := EvaluateDataProcThumb(opcode);
      var w := opcode as bv32;
      d.text.Asm? && (d.text.mnemonic == "NOP" <==> U4(((w & 0x80) >> 4) | (w & 0x7)) == U4(w >> 3))
  {
  }

  /** Every high-register word as written: ADD, CMP and MOV show the
      4-bit Rd (H1 above bits [2:0]) and Rm (bits [6:3]) but record the
      3-bit fields, filled before the widening; bits [9:8] = 11 with a
      nonzero low field is undefined; the rest is BX/BLX on Rm. */
  lemma DataProcHighRecord(opcode: bv16)
    requires (opcode as bv32) & 0xfc00 == 0x4400
    ensures var d := EvaluateDataProcThumb(opcode);
      var w := opcode as bv32;
      var Rd := U3(w) + (if w & 0x80 != 0 then 8 else 0);
      var Rm := U4(w >> 3);
      var record := DataProc(U3(w), U3(w), 0, ImmediateShift(U3(w >> 3), 0, 0));
      if (w >> 8) & 3 != 3 then
        && d.info == record
        && d.text == (if (w >> 8) & 3 == 2 && Rd == Rm then Asm("NOP", [Remark("MOV", [Reg(Rd), Reg(Rm)])])
                      else Asm(["ADD", "CMP", "MOV"][(w >> 8) & 3], [Reg(Rd), Reg(Rm)]))
      else if w & 7 != 0 then
        d.kind == Undefined && d.text == Asm("UNDEFINED INSTRUCTION", []) && d.info == record
      else
        d.text == Asm(if w & 0x80 != 0 then "BLX" else "BX", [Reg(Rm)])
  {
  }

  /** Corrected, the high-register ADD, CMP and MOV record exactly the
      registers their text shows. */
  lemma DataProcHighCorrected(opcode: bv16)
    requires (opcode as bv32) & 0xfc00 == 0x4400 && (opcode as bv32) & 0x0300 != 0x0300
    ensures var d := EvaluateDataProcThumbCorrected(opcode);
      var w := opcode as bv32;
      var Rd := U3(w) + (if w & 0x80 != 0 then 8 else 0);
      var Rm := U4(w >> 3);
      && d.info == DataProc(Rd, Rd, 0, ImmediateShift(Rm, 0, 0))
      && d.text.Asm?
      && (d.text.operands == [Reg(Rd), Reg(Rm)] || d.text.operands == [Remark("MOV", [Reg(Rd), Reg(Rm)])])
  {
    DataProcHighRecord(opcode);
  }

  /** 0x46C8 is shown as MOV r8, r9 but records Rd = Rn = 0 and Rm = 1;
      corrected, it records 8 and 9. */
  lemma DataProcHighExample()
    ensures EvaluateDataProcThumb(0x46C8).text == Asm("MOV", [Reg(8), Reg(9)])
    ensures EvaluateDataProcThumb(0x46C8).info == DataProc(0, 0, 0, ImmediateShift(1, 0, 0))
    ensures EvaluateDataProcThumbCorrected(0x46C8).info == DataProc(8, 8, 0, ImmediateShift(9, 0, 0))
  {
    DataProcHighRecord(0x46C8);
    DataProcHighCorrected(0x46C8);
  }

  // ---------------------------------------------------------------------
  // IT.
  // ---------------------------------------------------------------------

  /** IT names the condition of bits [7:4] as its only operand, and the
      mnemonic starts with "IT". */
  lemma IfThenCondition(opcode: bv16)
    ensures var d := EvaluateIfThenThumb(opcode);
      && d.text.Asm? && d.text.operands == [Named(ConditionStrings[((opcode as bv32) >> 4) & 0xf])]
      && |d.text.mnemonic| >= 2 && d.text.mnemonic[..2] == "IT"
      && d.kind == Unknown && d.info == NoInfo
  {
  }

  /** IT through the entry point. */
  lemma ThumbIfThen(opcode: bv16, address: bv32)
    requires (opcode as bv32) & 0xff00 == 0xbf00 && (opcode as bv32) & 0xf != 0
    ensures var d := ThumbEvaluateOpcode(opcode, address).desc;
      d.text.Asm? && d.text.operands == [Named(ConditionStrings[((opcode as bv32) >> 4) & 0xf])]
  {
    RoutesToIfThen(opcode, address);
    IfThenCondition(opcode);
  }
}
