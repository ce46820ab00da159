/**
 * The Thumb (16-bit) instruction decoder: one function per decoding
 * routine and the entry point that dispatches on the top bits of the
 * halfword.  Each routine reads the halfword zero-extended to 32 bits, as
 * the source's arithmetic on an `x_u16` promoted to `x_u32` does.
 */
module ThumbDecoder {
  import opened DisasmTypes
  import opened DisasmCommon

  /** The descriptor thumb_evaluate_opcode starts from. */
  function ThumbCleared(opcode: bv16): Descriptor
  {
    Cleared(opcode as bv32, 2)
  }

  /** thumb_alignpc4: the PC value a literal load is relative to, the
      fetch address plus 4 rounded down to a word. */
  function ThumbAlignPc4(address: bv32): (r: bv32)
    ensures r & 3 == 0
    ensures (address + 4) - r < 4
  {
    (address + 4) & !3
  }

  /** The 11-bit offset of evaluate_b_bl_blx_thumb, sign-extended by ORing
      in the upper bits only for the unconditional branch (opc 0) and the
      BL/BLX prefix (opc 2). */
  function BranchOffsetThumb(w: bv32): (r: bv32)
    ensures w & 0x400 == 0 ==> r == w & 0x7ff
    ensures r & 0xffff_f800 == (if ((w >> 11) & 0x3 == 0 || (w >> 11) & 0x3 == 2) && w & 0x400 != 0 then 0xffff_f800 else 0)
  {
    var offset0 := w & 0x7ff;
    var opc := (w >> 11) & 0x3;
    if (opc == 0 || opc == 2) && (offset0 & 0x400) != 0 then 0xffff_f800 | offset0 else offset0
  }

  /** A value rounded down to a multiple of 4 (the BLX suffix's mask). */
  function WordAlign(x: bv32): (r: bv32)
    ensures r & 3 == 0
    ensures x - r < 4
  {
    x & 0xffff_fffc
  }

  /** evaluate_b_bl_blx_thumb. */
  function EvaluateBBlBlxThumb(opcode: bv16, address: bv32): (r: Descriptor)
    ensures r.opcode == opcode as bv32 && r.size == 2
  {
    var w := opcode as bv32;
    var opc := (w >> 11) & 0x3;
    var offset := BranchOffsetThumb(w);
    var target := address + 4 + (offset << 1);
    var (kind, mnemonic, finalTarget) :=
      if opc == 0 then (B, "B", target)
      else if opc == 1 then (BLX, "BLX", WordAlign(target))
      else if opc == 2 then (Unknown, "prefix", offset << 12)
      else (BL, "BL", target);
    ThumbCleared(opcode).(kind := kind, text := Asm(mnemonic, [Target(finalTarget)]), info := Branch(-1, finalTarget))
  }

  /** evaluate_add_sub_thumb: ADDS/SUBS with a register or a 3-bit
      immediate; the register form records only Rm of its immediate shift. */
  function EvaluateAddSubThumb(opcode: bv16): (r: Descriptor)
    ensures r.opcode == opcode as bv32 && r.size == 2
  {
    var w := opcode as bv32;
    var Rd := U3(w);
    var Rn := U3(w >> 3);
    var RmImm := U3(w >> 6);
    var sub := (w & (1 << 9)) != 0;
    var immediate := (w & (1 << 10)) != 0;
    ThumbCleared(opcode).(
      kind := if sub then SUB else ADD,
      text := Asm(if sub then "SUBS" else "ADDS", [Reg(Rd), Reg(Rn), if immediate then Imm(RmImm) else Reg(RmImm)]),
      info := DataProc(Rd, Rn, 1, if immediate then Immediate((w >> 6) & 0x7) else ImmediateShift(RmImm, 0, 0)))
  }

  /** evaluate_shift_imm_thumb: LSLS/LSRS/ASRS by an immediate, a MOV with
      an immediate-shift operand; LSR and ASR by 0 mean by 32.  The
      dispatcher never passes opc = 3 (that is add/subtract), for which the
      type and shift stay as cleared. */
  function EvaluateShiftImmThumb(opcode: bv16): (r: Descriptor)
    ensures r.opcode == opcode as bv32 && r.size == 2
  {
    var w := opcode as bv32;
    var Rd := U3(w);
    var Rm := U3(w >> 3);
    var imm0 := U5(w >> 6);
    var opc := U2(w >> 11);
    var mnemonic := if opc == 0 then "LSLS" else if opc == 1 then "LSRS" else if opc == 2 then "ASRS" else "";
    var imm := if imm0 == 0 && opc != 0 then 32 else imm0;
    ThumbCleared(opcode).(
      kind := if opc < 3 then MOV else Unknown,
      text := Asm(mnemonic, [Reg(Rd), Reg(Rm), Imm(imm)]),
      info := DataProc(Rd, -1, 1, ImmediateShift(Rm, if opc < 3 then opc else 0, imm)))
  }

  /** evaluate_data_proc_imm_thumb: MOVS/CMP/ADDS/SUBS with an 8-bit
      immediate; MOVS has no Rn and CMP no Rd. */
  function EvaluateDataProcImmThumb(opcode: bv16): (r: Descriptor)
    ensures r.opcode == opcode as bv32 && r.size == 2
  {
    var w := opcode as bv32;
    var imm := w & 0xff;
    var Rd := U3(w >> 8);
    var (kind, mnemonic, infoRd, infoRn) := match U2(w >> 11)
      case 0 => (MOV, "MOVS", Rd, -1)
      case 1 => (CMP, "CMP", -1, Rd)
      case 2 => (ADD, "ADDS", Rd, Rd)
      case _ => (SUB, "SUBS", Rd, Rd);
    ThumbCleared(opcode).(
      kind := kind,
      text := Asm(mnemonic, [Reg(Rd), Imm(imm as int)]),
      info := DataProc(infoRd, infoRn, 1, Immediate(imm)))
  }

  /** The sixteen low-register ALU operations: type, mnemonic and operand
      record.  The shifts are MOVs with a register-shift operand shifting
      Rd by Rm; RSBS (NEG) is Rm subtracted from the immediate 0. */
  function ThumbAluOperation(op: int, Rd: int, Rm: int, S: int): (InstrType, string, Info)
  {
    var plain := DataProc(Rd, Rd, S, ImmediateShift(Rm, 0, 0));
    match op
    case 0x0 => (AND, "ANDS", plain)
    case 0x1 => (EOR, "EORS", plain)
    case 0x2 => (MOV, "LSLS", DataProc(Rd, Rd, S, RegisterShift(Rd, 0, Rm)))
    case 0x3 => (MOV, "LSRS", DataProc(Rd, Rd, S, RegisterShift(Rd, 1, Rm)))
    case 0x4 => (MOV, "ASRS", DataProc(Rd, Rd, S, RegisterShift(Rd, 2, Rm)))
    case 0x5 => (ADC, "ADCS", plain)
    case 0x6 => (SBC, "SBCS", plain)
    case 0x7 => (MOV, "RORS", DataProc(Rd, Rd, S, RegisterShift(Rd, 3, Rm)))
    case 0x8 => (TST, "TST", plain)
    case 0x9 => (RSB, "RSBS", DataProc(Rd, Rm, S, Immediate(0)))
    case 0xa => (CMP, "CMP", plain)
    case 0xb => (CMN, "CMN", plain)
    case 0xc => (ORR, "ORRS", plain)
    case 0xd => (MUL, "MULS", plain)
    case 0xe => (BIC, "BICS", plain)
    case _ => (MVN, "MVNS", plain)
  }

  /** evaluate_data_proc_thumb.  The operand record is filled with the
      3-bit registers before the high-register forms widen them, and S is
      computed from the type the descriptor holds at that point, the
      cleared one, so it is 1 for the low-register forms and 0 for the
      high-register ones.  A high-register MOV of a register to itself is
      shown as NOP; BX/BLX set only the register operand of the branch
      record, whose target stays 0. */
  function EvaluateDataProcThumb(opcode: bv16): (r: Descriptor)
    ensures r.opcode == opcode as bv32 && r.size == 2
  {
    var w := opcode as bv32;
    var highReg := (w & 0x0400) >> 10 == 1;
    var op := U4(w >> 6);
    var Rd3 := U3(w);
    var Rm3 := U3(w >> 3);
    var d0 := ThumbCleared(opcode);
    var S := if !highReg || d0.kind == CMP then 1 else 0;
    if highReg then
      var H1 := (w & 0x80) >> 7;
      var Rd := U4(((w & 0x80) >> 4) | (w & 0x7));
      var Rm := U4(((w & 0x40) >> 3) | ((w & 0x38) >> 3));
      var baseInfo := DataProc(Rd3, Rd3, S, ImmediateShift(Rm3, 0, 0));
      var hop := U2(w >> 8);
      if hop == 3 then
        if (w & 0x7) == 0 then
          d0.(kind := if H1 == 1 then BLX else BX,
              text := Asm(if H1 == 1 then "BLX" else "BX", [Reg(Rm)]),
              info := Branch(Rm, 0))
        else
          d0.(kind := Undefined, text := Asm("UNDEFINED INSTRUCTION", []), info := baseInfo)
      else
        var (kind, mnemonic) := if hop == 0 then (ADD, "ADD") else if hop == 1 then (CMP, "CMP") else (MOV, "MOV");
        var nop := hop == 2 && Rd == Rm;
        d0.(kind := kind,
            text := if nop then Asm("NOP", [Remark(mnemonic, [Reg(Rd), Reg(Rm)])]) else Asm(mnemonic, [Reg(Rd), Reg(Rm)]),
            info := baseInfo)
    else
      var (kind, mnemonic, info) := ThumbAluOperation(op, Rd3, Rm3, S);
      d0.(kind := kind, text := Asm(mnemonic, [Reg(Rd3), Reg(Rm3)]), info := info)
  }

  /** EvaluateDataProcThumb with the high-register ADD, CMP and MOV
      recording the widened 4-bit Rd and Rm that their text shows; every
      other form, and every type and text, is decoded as written. */
  function EvaluateDataProcThumbCorrected(opcode: bv16): (r: Descriptor)
    ensures r.opcode == opcode as bv32 && r.size == 2
    ensures r.kind == EvaluateDataProcThumb(opcode).kind
    ensures r.text == EvaluateDataProcThumb(opcode).text
  {
    var d := EvaluateDataProcThumb(opcode);
    var w := opcode as bv32;
    if (w & 0x0400) != 0 && U2(w >> 8) != 3 then
      var Rd := U4(((w & 0x80) >> 4) | (w & 0x7));
      var Rm := U4(((w & 0x40) >> 3) | ((w & 0x38) >> 3));
      d.(info := d.info.(Rd := Rd, Rn := Rd, operand := ImmediateShift(Rm, 0, 0)))
    else
      d
  }

  /** evaluate_load_literal_thumb: LDR from the word-aligned PC plus
      imm8 * 4; the text also shows the address loaded from. */
  function EvaluateLoadLiteralThumb(opcode: bv16, address: bv32): (r: Descriptor)
    ensures r.opcode == opcode as bv32 && r.size == 2
  {
    var w := opcode as bv32;
    var Rd := U3(w >> 8);
    var immediate := (w & 0xff) * 4;
    ThumbCleared(opcode).(
      kind := LDR,
      text := Asm("LDR", [Reg(Rd), Mem(Named("pc"), Offset, [Imm(immediate as int)]),
                          Remark("", [Target(ThumbAlignPc4(address) + immediate)])]),
      info := LoadStore(Rd, 15, 0, 0, ImmOffset(immediate)))
  }

  /** evaluate_load_store_reg_thumb: the eight register-offset transfers
      selected by bits [11:9]. */
  function EvaluateLoadStoreRegThumb(opcode: bv16): (r: Descriptor)
    ensures r.opcode == opcode as bv32 && r.size == 2
  {
    var w := opcode as bv32;
    var Rd := U3(w);
    var Rn := U3(w >> 3);
    var Rm := U3(w >> 6);
    var (kind, mnemonic) := match U3(w >> 9)
      case 0 => (STR, "STR")
      case 1 => (STRH, "STRH")
      case 2 => (STRB, "STRB")
      case 3 => (LDRSB, "LDRSB")
      case 4 => (LDR, "LDR")
      case 5 => (LDRH, "LDRH")
      case 6 => (LDRB, "LDRB")
      case _ => (LDRSH, "LDRSH");
    ThumbCleared(opcode).(
      kind := kind,
      text := Asm(mnemonic, [Reg(Rd), Mem(Reg(Rn), Offset, [Reg(Rm)])]),
      info := LoadStore(Rd, Rn, 0, 0, RegOffset(Rm, 0, 0)))
  }

  /** evaluate_load_store_imm_thumb: word, halfword and byte transfers with
      a 5-bit offset scaled by the access size.  The type is LDR or STR
      whatever the size; the suffix a blank for words, is empty here. */
  function EvaluateLoadStoreImmThumb(opcode: bv16): (r: Descriptor)
    ensures r.opcode == opcode as bv32 && r.size == 2
  {
    var w := opcode as bv32;
    var offset := (w >> 6) & 0x1f;
    var Rd := U3(w);
    var Rn := U3(w >> 3);
    var load := (w & (1 << 11)) != 0;
    var (suffix, shift) :=
      if (w & 0xf000) == 0x8000 then ("H", 1)
      else if (w & (1 << 12)) != 0 then ("B", 0)
      else ("", 2);
    var scaled: bv32 := offset << shift;
    ThumbCleared(opcode).(
      kind := if load then LDR else STR,
      text := Asm((if load then "LDR" else "STR") + suffix, [Reg(Rd), Mem(Reg(Rn), Offset, [Imm(scaled as int)])]),
      info := LoadStore(Rd, Rn, 0, 0, ImmOffset(scaled)))
  }

  /** evaluate_load_store_stack_thumb: SP-relative word transfers. */
  function EvaluateLoadStoreStackThumb(opcode: bv16): (r: Descriptor)
    ensures r.opcode == opcode as bv32 && r.size == 2
  {
    var w := opcode as bv32;
    var offset := (w & 0xff) * 4;
    var Rd := U3(w >> 8);
    var load := (w & (1 << 11)) != 0;
    ThumbCleared(opcode).(
      kind := if load then LDR else STR,
      text := Asm(if load then "LDR" else "STR", [Reg(Rd), Mem(Named("SP"), Offset, [Imm(offset as int)])]),
      info := LoadStore(Rd, 13, 0, 0, ImmOffset(offset)))
  }

  /** evaluate_add_sp_pc_thumb: Rd := SP or PC plus imm8 * 4. */
  function EvaluateAddSpPcThumb(opcode: bv16): (r: Descriptor)
    ensures r.opcode == opcode as bv32 && r.size == 2
  {
    var w := opcode as bv32;
    var imm := (w & 0xff) * 4;
    var Rd := U3(w >> 8);
    var sp := (w & (1 << 11)) != 0;
    ThumbCleared(opcode).(
      kind := ADD,
      text := Asm("ADD", [Reg(Rd), Named(if sp then "SP" else "PC"), Imm(imm as int)]),
      info := DataProc(Rd, if sp then 13 else 15, 0, Immediate(imm)))
  }

  /** evaluate_adjust_stack_thumb: SP := SP plus or minus imm7 * 4. */
  function EvaluateAdjustStackThumb(opcode: bv16): (r: Descriptor)
    ensures r.opcode == opcode as bv32 && r.size == 2
  {
    var w := opcode as bv32;
    var imm := (w & 0x7f) * 4;
    var sub := (w & (1 << 7)) != 0;
    ThumbCleared(opcode).(
      kind := if sub then SUB else ADD,
      text := Asm(if sub then "SUB" else "ADD", [Named("SP"), Imm(imm as int)]),
      info := DataProc(13, 13, 0, Immediate(imm)))
  }

  /** evaluate_breakpoint_thumb. */
  function EvaluateBreakpointThumb(opcode: bv16): (r: Descriptor)
    ensures r.opcode == opcode as bv32 && r.size == 2
  {
    ThumbCleared(opcode).(kind := BKPT, text := Asm("BKPT", [Num(((opcode as bv32) & 0xff) as int)]))
  }

  /** evaluate_load_store_multiple_thumb.  The generic LDM/STM (0xC000
      group) writes back, except an LDM whose base is in the list; PUSH and
      POP use SP, PUSH as a decrement-before store that adds LR with the R
      bit, POP as an increment-after load that adds PC. */
  function EvaluateLoadStoreMultipleThumb(opcode: bv16): (r: Descriptor)
    ensures r.opcode == opcode as bv32 && r.size == 2
  {
    var w := opcode as bv32;
    var regList := w & 0xff;
    var load := (w & (1 << 11)) != 0;
    var R := (w & (1 << 8)) != 0;
    var base := (w >> 8) & 0x7;
    if (w & 0xf000) == 0xc000 then
      var Rn := U3(base);
      var wback := !(load && (w & (1 << base)) != 0);
      ThumbCleared(opcode).(
        kind := if load then LDM else STM,
        text := Asm(if load then "LDM" else "STM", [WithWriteBack(wback, Reg(Rn)), RegList(RegisterList(regList), false)]),
        info := LoadStoreMultiple(Rn, regList, 0, 0, 0))
    else if load then
      var list := if R then regList | 0x8000 else regList;
      ThumbCleared(opcode).(
        kind := LDM,
        text := Asm("POP", [RegList(RegisterList(list), false)]),
        info := LoadStoreMultiple(13, list, 0, 0, 0))
    else
      var list := if R then regList | 0x4000 else regList;
      ThumbCleared(opcode).(
        kind := STM,
        text := Asm("PUSH", [RegList(RegisterList(list), false)]),
        info := LoadStoreMultiple(13, list, 3, 0, 0))
  }

  /** The 8-bit offset of evaluate_cond_branch_thumb, sign-extended by
      ORing in the upper bits. */
  function CondBranchOffsetThumb(w: bv32): (r: bv32)
    ensures r & 0xff == w & 0xff
    ensures r & 0xffff_ff00 == (if w & 0x80 != 0 then 0xffff_ff00 else 0)
  {
    var offset0 := w & 0xff;
    if (offset0 & 0x80) != 0 then 0xffff_ff00 | offset0 else offset0
  }

  /** evaluate_cond_branch_thumb: condition 1111 is SVC, 1110 undefined,
      the rest branch by a sign-extended halfword offset. */
  function EvaluateCondBranchThumb(opcode: bv16, address: bv32): (r: Descriptor)
    ensures r.opcode == opcode as bv32 && r.size == 2
  {
    var w := opcode as bv32;
    var offset0 := w & 0xff;
    var cond := (w >> 8) & 0xf;
    if cond == 0xf then
      ThumbCleared(opcode).(kind := SWI, text := Asm("SVC", [Num(offset0 as int)]))
    else if cond == 0xe then
      ThumbCleared(opcode).(kind := Undefined, text := Asm("UNDEFINED INSTRUCTION", []))
    else
      var target := address + 4 + (CondBranchOffsetThumb(w) << 1);
      ThumbCleared(opcode).(kind := B, text := Asm("B" + CondAt(cond), [Target(target)]), info := Branch(-1, target))
  }

  /** The halfword offset of evaluate_cb_thumb: i:imm5, bit 9 above bits
      [7:3], zero-extended. */
  function CbOffsetThumb(w: bv32): bv32
  {
    ((w >> 3) & 0x1f) | ((w & 0x0200) >> 4)
  }

  /** evaluate_cb_thumb: CBZ/CBNZ, text only. */
  function EvaluateCbThumb(opcode: bv16, address: bv32): (r: Descriptor)
    ensures r.opcode == opcode as bv32 && r.size == 2
  {
    var w := opcode as bv32;
    ThumbCleared(opcode).(
      text := Asm("CB" + (if (w & 0x0800) != 0 then "N" else "") + "Z",
                  [Reg(U3(w)), Target(address + 4 + (CbOffsetThumb(w) << 1))]))
  }

  /** evaluate_extend_thumb: SXTH/SXTB/UXTH/UXTB, text only. */
  function EvaluateExtendThumb(opcode: bv16): (r: Descriptor)
    ensures r.opcode == opcode as bv32 && r.size == 2
  {
    var w := opcode as bv32;
    ThumbCleared(opcode).(
      text := Asm((if (w & 0x80) != 0 then "U" else "S") + "XT" + (if (w & 0x40) != 0 then "B" else "H"),
                  [Reg(U3(w)), Reg(U3(w >> 3))]))
  }

  /** evaluate_cps_thumb: SETEND or CPSIE/CPSID, text only. */
  function EvaluateCpsThumb(opcode: bv16): (r: Descriptor)
    ensures r.opcode == opcode as bv32 && r.size == 2
  {
    var w := opcode as bv32;
    if (w & 0x0ff0) == 0x0650 then
      ThumbCleared(opcode).(text := Asm("SETEND", [Named(if (w & 0x80) != 0 then "BE" else "LE")]))
    else
      ThumbCleared(opcode).(
        text := Asm("CPSI" + (if (w & 0x10) != 0 then "D" else "E"),
                    [Named((if (w & 0x4) != 0 then "A" else "") + (if (w & 0x2) != 0 then "I" else "")
                           + (if (w & 0x1) != 0 then "F" else ""))]))
  }

  /** evaluate_byterev_thumb: REV/REV16/REVSH, text only. */
  function EvaluateByterevThumb(opcode: bv16): (r: Descriptor)
    ensures r.opcode == opcode as bv32 && r.size == 2
  {
    var w := opcode as bv32;
    var suffix := match (w >> 6) & 3
      case 0 => ""
      case 1 => "16"
      case _ => "SH";
    ThumbCleared(opcode).(text := Asm("REV" + suffix, [Reg(U3(w)), Reg(U3(w >> 3))]))
  }

  /** evaluate_hint_thumb, text only. */
  function EvaluateHintThumb(opcode: bv16): (r: Descriptor)
    ensures r.opcode == opcode as bv32 && r.size == 2
  {
    var hint := match ((opcode as bv32) >> 4) & 0xf
      case 0 => "NOP"
      case 1 => "YIELD"
      case 2 => "WFE"
      case 3 => "WFI"
      case 4 => "SEV"
      case _ => "HINT (UNRECOGNIZED)";
    ThumbCleared(opcode).(text := Asm(hint, []))
  }

  /** evaluate_ifthen_thumb: IT with up to three then/else letters taken
      from the mask, and the condition from bits [7:4], text only. */
  function EvaluateIfThenThumb(opcode: bv16): (r: Descriptor)
    ensures r.opcode == opcode as bv32 && r.size == 2
  {
    var w := opcode as bv32;
    var z := if (w & 0x1) != 0 then (if (w & 0x2) != 0 then "T" else "E") else "";
    var y := if (w & 0x3) != 0 then (if (w & 0x4) != 0 then "T" else "E") else "";
    var x := if (w & 0x7) != 0 then (if (w & 0x8) != 0 then "T" else "E") else "";
    ThumbCleared(opcode).(text := Asm("IT" + x + y + z, [Named(CondAt(w >> 4))]))
  }

  /** The miscellaneous (0xB000) group of thumb_evaluate_opcode, switched on
      bits [11:8]. */
  function EvaluateMiscThumb(opcode: bv16, address: bv32): (r: Descriptor)
    ensures r.opcode == opcode as bv32 && r.size == 2
  {
    var w := opcode as bv32;
    var undefined := ThumbCleared(opcode).(kind := Undefined, text := Asm("UNDEFINED INSTRUCTION", []));
    match U4(w >> 8)
    case 0x0 => EvaluateAdjustStackThumb(opcode)
    case 0x1 => EvaluateCbThumb(opcode, address)
    case 0x3 => EvaluateCbThumb(opcode, address)
    case 0x9 => EvaluateCbThumb(opcode, address)
    case 0xb => EvaluateCbThumb(opcode, address)
    case 0x2 => EvaluateExtendThumb(opcode)
    case 0x4 => EvaluateLoadStoreMultipleThumb(opcode)
    case 0x5 => EvaluateLoadStoreMultipleThumb(opcode)
    case 0xc => EvaluateLoadStoreMultipleThumb(opcode)
    case 0xd => EvaluateLoadStoreMultipleThumb(opcode)
    case 0x6 => EvaluateCpsThumb(opcode)
    case 0xa => if (w & 0xc0) == 0x80 then undefined else EvaluateByterevThumb(opcode)
    case 0xe => EvaluateBreakpointThumb(opcode)
    case 0xf => if (w & 0xf) != 0 then EvaluateIfThenThumb(opcode) else EvaluateHintThumb(opcode)
    case _ => undefined
  }

  /** thumb_evaluate_opcode: clear the descriptor, then dispatch on the top
      bits.  The trailing "should never reach" return of -1 is
      unreachable: every halfword is decoded with status 0, and the
      descriptor records the opcode and the two-byte size. */
  function ThumbEvaluateOpcode(opcode: bv16, address: bv32): (r: Evaluation)
    ensures r.status == 0
    ensures r.desc.opcode == opcode as bv32 && r.desc.size == 2
  {
    var w := opcode as bv32;
    if (w & 0xe000) == 0 then
      if (w & 0x1800) == 0x1800 then Evaluation(0, EvaluateAddSubThumb(opcode))
      else Evaluation(0, EvaluateShiftImmThumb(opcode))
    else if (w & 0xe000) == 0x2000 then Evaluation(0, EvaluateDataProcImmThumb(opcode))
    else if (w & 0xf800) == 0x4000 then Evaluation(0, EvaluateDataProcThumb(opcode))
    else if (w & 0xf800) == 0x4800 then Evaluation(0, EvaluateLoadLiteralThumb(opcode, address))
    else if (w & 0xf000) == 0x5000 then Evaluation(0, EvaluateLoadStoreRegThumb(opcode))
    else if (w & 0xe000) == 0x6000 || (w & 0xf000) == 0x8000 then Evaluation(0, EvaluateLoadStoreImmThumb(opcode))
    else if (w & 0xf000) == 0x9000 then Evaluation(0, EvaluateLoadStoreStackThumb(opcode))
    else if (w & 0xf000) == 0xa000 then Evaluation(0, EvaluateAddSpPcThumb(opcode))
    else if (w & 0xf000) == 0xb000 then Evaluation(0, EvaluateMiscThumb(opcode, address))
    else if (w & 0xf000) == 0xc000 then Evaluation(0, EvaluateLoadStoreMultipleThumb(opcode))
    else if (w & 0xf000) == 0xd000 then Evaluation(0, EvaluateCondBranchThumb(opcode, address))
    else if (w & 0xe000) == 0xe000 then
      if (w & 0xf801) == 0xe801 then
        Evaluation(0, ThumbCleared(opcode).(kind := Undefined, text := Asm("UNDEFINED INSTRUCTION", [])))
      else Evaluation(0, EvaluateBBlBlxThumb(opcode, address))
    else Evaluation(-1, ThumbCleared(opcode))
  }
}
