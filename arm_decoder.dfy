/**
 * The ARM (32-bit) instruction decoder: one function per decoding routine,
 * each returning the descriptor the routine leaves behind, and the entry
 * point that dispatches on the opcode's class bits.
 *
 * Every routine starts from the descriptor the entry point cleared
 * (`ArmCleared`), so each returns a descriptor that still records the
 * opcode and the four-byte size.
 */
module ArmDecoder {
  import opened DisasmTypes
  import opened DisasmCommon

  /** The descriptor arm_evaluate_opcode starts from. */
  function ArmCleared(opcode: bv32): Descriptor
  {
    Cleared(opcode, 4)
  }

  /** The condition suffix of the coprocessor routines: "2" in the
      unconditional space (condition field 1111), COND otherwise. */
  function CondOr2(opcode: bv32): string
  {
    if (opcode & 0xf000_0000) == 0xf000_0000 then "2" else Cond(opcode)
  }

  /** The shift names in encoding order; 4 is the RRX the decoders use for
      ROR by zero. */
  function ShiftKindOf(shift: int): ShiftKind
  {
    match shift
    case 0 => LSL
    case 1 => LSR
    case 2 => ASR
    case 3 => ROR
    case _ => RRX
  }

  /** The immediate-shift encodings with a zero amount: LSR and ASR by 0
      mean a shift by 32, and ROR by 0 is RRX (shift 4).  Returns the
      normalised (shift, amount). */
  function NormalizeShift(shift: int, shiftImm: int): (r: (int, int))
    ensures 0 <= shift < 4 && r.1 == 0 ==> r.0 == 0 || r.0 == 4
    ensures 0 <= shift < 4 && r.0 == 4 ==> r.1 == 0
    ensures shiftImm <= 32 ==> r.1 <= 32
    ensures shiftImm != 0 ==> r == (shift, shiftImm)
  {
    var imm1 := if shift == 1 && shiftImm == 0 then 32 else shiftImm;
    var imm2 := if shift == 2 && imm1 == 0 then 32 else imm1;
    var shift1 := if shift == 3 && imm2 == 0 then 4 else shift;
    (shift1, imm2)
  }

  /** The rendered register operand with a normalised immediate shift: the
      register alone for LSL #0, else the register and its shift. */
  function ShiftedOperands(rm: Operand, shift: int, shiftImm: int): seq<Operand>
  {
    if shiftImm == 0 && shift == 0 then [rm]
    else [rm, ShiftImm(ShiftKindOf(shift), shiftImm)]
  }

  /** evaluate_unknown. */
  function EvaluateUnknown(opcode: bv32): (r: Descriptor)
    ensures r.opcode == opcode && r.size == 4
  {
    ArmCleared(opcode).(kind := Undefined, text := Asm("UNDEFINED INSTRUCTION", []))
  }

  /** evaluate_pld: the preload hint, anything else in its space is
      undefined. */
  function EvaluatePld(opcode: bv32): (r: Descriptor)
    ensures r.opcode == opcode && r.size == 4
  {
    if (opcode & 0x0d70_f000) == 0x0550_f000 then
      ArmCleared(opcode).(kind := PLD, text := Asm("PLD...TODO...", []))
    else
      EvaluateUnknown(opcode)
  }

  /** evaluate_srs: SRS and RFE are rendered but leave the type as cleared. */
  function EvaluateSrs(opcode: bv32): (r: Descriptor)
    ensures r.opcode == opcode && r.size == 4
  {
    var wback := (opcode & (1 << 21)) != 0;
    var mode := match (opcode >> 23) & 0x3
      case 0 => "DA"
      case 1 => ""
      case 2 => "DB"
      case _ => "IB";
    var group := opcode & 0x0e50_0000;
    if group == 0x0840_0000 then
      ArmCleared(opcode).(text := Asm("SRS" + mode, [WithWriteBack(wback, Named("SP")), Imm(U5(opcode))]))
    else if group == 0x0810_0000 then
      ArmCleared(opcode).(text := Asm("RFE" + mode, [WithWriteBack(wback, Reg(U4(opcode >> 16)))]))
    else
      EvaluateUnknown(opcode)
  }

  /** evaluate_swi. */
  function EvaluateSwi(opcode: bv32): (r: Descriptor)
    ensures r.opcode == opcode && r.size == 4
  {
    ArmCleared(opcode).(kind := SWI, text := Asm("SVC", [Num((opcode & 0x00ff_ffff) as int)]))
  }

  /** The 24-bit branch offset sign-extended as the source does it: OR in
      the top byte when bit 23 is set. */
  function BranchImmediate(opcode: bv32): (r: bv32)
    ensures r & 0xff00_0000 == (if opcode & 0x0080_0000 != 0 then 0xff00_0000 else 0)
    ensures opcode & 0x0080_0000 == 0 ==> r == opcode & 0x00ff_ffff
  {
    var immediate := opcode & 0x00ff_ffff;
    if (immediate & 0x0080_0000) != 0 then 0xff00_0000 | immediate else immediate
  }

  /** evaluate_blx_imm: the H bit (24) selects the odd halfword. */
  function EvaluateBlxImm(opcode: bv32, address: bv32): (r: Descriptor)
    ensures r.opcode == opcode && r.size == 4
  {
    var offset0 := BranchImmediate(opcode) << 2;
    var offset := if (opcode & 0x0100_0000) != 0 then offset0 | 0x2 else offset0;
    var target := address + 8 + offset;
    ArmCleared(opcode).(kind := BLX, text := Asm("BLX", [Target(target)]), info := Branch(-1, target))
  }

  /** evaluate_b_bl. */
  function EvaluateBBl(opcode: bv32, address: bv32): (r: Descriptor)
    ensures r.opcode == opcode && r.size == 4
  {
    var L := (opcode & 0x0100_0000) >> 24;
    var target := address + 8 + (BranchImmediate(opcode) << 2);
    ArmCleared(opcode).(
      kind := if L != 0 then BL else B,
      text := Asm("B" + (if L != 0 then "L" else "") + Cond(opcode), [Target(target)]),
      info := Branch(-1, target))
  }

  /** evaluate_ldc_stc_mcrr_mrrc.  The MCRR/MRRC guard tests the MCRR
      pattern twice, so an MRRC encoding is decoded as LDC; inside, the
      MRRC update can never fire.  The LDC/STC offset is kept in eight bits,
      so `imm8 << 2` loses its top two bits. */
  function EvaluateLdcStcMcrrMrrc(opcode: bv32): (r: Descriptor)
    ensures r.opcode == opcode && r.size == 4
  {
    var cpNum := U4(opcode >> 8);
    if (opcode & 0x0ff0_0000) == 0x0c40_0000 || (opcode & 0x0ff0_0000) == 0x0c40_0000 then
      var d0 := ArmCleared(opcode);
      var d1 := if (opcode & 0x0ff0_0000) == 0x0c40_0000 then d0.(kind := MCRR) else d0;
      var d2 := if (opcode & 0x0ff0_0000) == 0x0c50_0000 then d1.(kind := MRRC) else d1;
      var mnemonic := if d2.kind == MRRC then "MRRC" else "MCRR";
      d2.(text := Asm(mnemonic + CondOr2(opcode) + Cond(opcode),
                      [Coproc(cpNum), Num(U4(opcode >> 4)), Reg(U4(opcode >> 12)),
                       Reg(U4(opcode >> 16)), CReg(U4(opcode))]))
    else
      var CRd := U4(opcode >> 12);
      var Rn := U4(opcode >> 16);
      var offset := Low8((opcode & 0xff) << 2);
      var load := (opcode & 0x0010_0000) != 0;
      var up := (opcode & 0x0080_0000) >> 23 == 1;
      var mode := opcode & 0x0120_0000;
      var address :=
        if mode == 0x0100_0000 then Mem(Reg(Rn), Offset, [SignedBy(up, Imm(offset as int))])
        else if mode == 0x0120_0000 then Mem(Reg(Rn), PreIndexed, [SignedBy(up, Imm(offset as int))])
        else if mode == 0x0020_0000 then Mem(Reg(Rn), PostIndexed, [SignedBy(up, Imm(offset as int))])
        else Mem(Reg(Rn), Unindexed, [Num((offset >> 2) as int)]);
      ArmCleared(opcode).(
        kind := if load then LDC else STC,
        text := Asm((if load then "LDC" else "STC") + CondOr2(opcode)
                    + (if (opcode & (1 << 22)) != 0 then "L" else ""),
                    [Coproc(cpNum), CReg(CRd), address]))
  }

  /** evaluate_cdp_mcr_mrc: bit 4 separates the register transfers (bit 20
      picks MRC over MCR) from CDP. */
  function EvaluateCdpMcrMrc(opcode: bv32): (r: Descriptor)
    ensures r.opcode == opcode && r.size == 4
  {
    var cpNum := U4(opcode >> 8);
    var opcode2 := U3(opcode >> 5);
    if (opcode & 0x10) != 0 then
      var mrc := (opcode & 0x0010_0000) != 0;
      ArmCleared(opcode).(
        kind := if mrc then MRC else MCR,
        text := Asm((if mrc then "MRC" else "MCR") + CondOr2(opcode),
                    [Coproc(cpNum), Num(U3(opcode >> 21)), Reg(U4(opcode >> 12)),
                     CReg(U4(opcode >> 16)), CReg(U4(opcode)), Num(opcode2)]))
    else
      ArmCleared(opcode).(
        kind := CDP,
        text := Asm("CDP" + CondOr2(opcode),
                    [Coproc(cpNum), Num(U4(opcode >> 20)), CReg(U4(opcode >> 12)),
                     CReg(U4(opcode >> 16)), CReg(U4(opcode)), Num(opcode2)]))
  }

  /** The type and mnemonic suffix of a single load/store: B selects the
      byte forms, P = 0 with W = 1 the user-mode (T) forms. */
  function LoadStoreKind(B: int, P: int, W: int, L: int): (InstrType, string)
  {
    if B == 1 then
      if P == 0 && W == 1 then (if L == 1 then LDRBT else STRBT, "BT")
      else (if L == 1 then LDRB else STRB, "B")
    else
      if P == 0 && W == 1 then (if L == 1 then LDRT else STRT, "T")
      else (if L == 1 then LDR else STR, "")
  }

  /** The index mode (0 offset, 1 pre-indexed, 2 post-indexed) selected by
      the P and W bits. */
  function IndexModeOf(P: int, W: int): int
  {
    if P == 1 then (if W == 0 then 0 else 1) else 2
  }

  function IndexOf(indexMode: int): Index
  {
    if indexMode == 0 then Offset else if indexMode == 1 then PreIndexed else PostIndexed
  }

  /** evaluate_load_store: LDR/STR with the byte and user-mode variants,
      a 12-bit immediate or a shifted register offset. */
  function EvaluateLoadStore(opcode: bv32): (r: Descriptor)
    ensures r.opcode == opcode && r.size == 4
  {
    var I := U1(opcode >> 25);
    var P := U1(opcode >> 24);
    var U := U1(opcode >> 23);
    var B := U1(opcode >> 22);
    var W := U1(opcode >> 21);
    var L := U1(opcode >> 20);
    var Rd := U4(opcode >> 12);
    var Rn := U4(opcode >> 16);
    var (kind, suffix) := LoadStoreKind(B, P, W, L);
    var (offset, offsetText) :=
      if I == 0 then
        var offset12 := opcode & 0xfff;
        (ImmOffset(offset12), if offset12 != 0 then [SignedBy(U == 1, Imm(offset12 as int))] else [])
      else
        var Rm := U4(opcode);
        var (shift, shiftImm) := NormalizeShift(U2(opcode >> 5), U5(opcode >> 7));
        (RegOffset(Rm, shift, shiftImm), ShiftedOperands(SignedBy(U == 1, Reg(Rm)), shift, shiftImm));
    var indexMode := IndexModeOf(P, W);
    ArmCleared(opcode).(
      kind := kind,
      text := Asm((if L == 1 then "LDR" else "STR") + Cond(opcode) + suffix,
                  [Reg(Rd), Mem(Reg(Rn), IndexOf(indexMode), offsetText)]),
      info := LoadStore(Rd, Rn, U, indexMode, offset))
  }

  /** The body of evaluate_extend once the width selector is known: 0 is
      B16, 1 undefined, 2 B and 3 H; the result is the type the routine
      returns and the text it writes. */
  function ExtendForm(opcode: bv32, size: bv32): (r: (InstrType, Text))
    requires size < 4
    ensures r.0 == Undefined <==> size == 1
    ensures r.1.Asm?
  {
    var rm := U4(opcode);
    var rd := U4(opcode >> 12);
    var rn := U4(opcode >> 16);
    if size == 1 then (Undefined, Asm("UNDEFINED", []))
    else
      var width := if size == 0 then "B16" else if size == 2 then "B" else "H";
      var rot := match (opcode >> 10) & 0x3
        case 0 => []
        case 1 => [ShiftImm(ROR, 8)]
        case 2 => [ShiftImm(ROR, 16)]
        case _ => [ShiftImm(ROR, 24)];
      var sign := if (opcode & (1 << 22)) != 0 then "U" else "S";
      if rn == 0xf then
        (MOV, Asm(sign + "XT" + width + Cond(opcode), [Reg(rd), Reg(rm)] + rot))
      else
        (ADD, Asm(sign + "XTA" + width + Cond(opcode), [Reg(rd), Reg(rn), Reg(rm)] + rot))
  }

  /** evaluate_extend as written: the width selector is bits [25:24],
      which the media dispatch always passes as 10, so the width shown is
      always B. */
  function EvaluateExtend(opcode: bv32): (r: (InstrType, Text))
    ensures r.0 == Undefined <==> (opcode >> 24) & 0x3 == 1
    ensures r.1.Asm?
  {
    ExtendForm(opcode, (opcode >> 24) & 0x3)
  }

  /** evaluate_extend with the width selector read from bits [21:20],
      where the extend encodings keep it (00 B16, 10 B, 11 H). */
  function EvaluateExtendCorrected(opcode: bv32): (r: (InstrType, Text))
    ensures r.0 == Undefined <==> (opcode >> 20) & 0x3 == 1
    ensures r.1.Asm?
  {
    ExtendForm(opcode, (opcode >> 20) & 0x3)
  }

  /** evaluate_p_add_sub: parallel add/subtract; the prefix comes from bits
      [22:20], the operation from bits [7:5]. */
  function EvaluatePAddSub(opcode: bv32): (r: (InstrType, Text))
    ensures r.0 == Undefined <==> U3(opcode >> 20) in {0, 4} || U3(opcode >> 5) in {5, 6}
    ensures r.0 == Undefined ==> r.1 == Asm("UNDEFINED", [])
  {
    var prefix := match (opcode >> 20) & 0x7
      case 1 => "S"
      case 2 => "Q"
      case 3 => "SH"
      case 5 => "U"
      case 6 => "UQ"
      case 7 => "UH"
      case _ => "";
    var (kind, op) := match (opcode >> 5) & 0x7
      case 0 => (ADD, "ADD16")
      case 1 => (ADD, "ADDSUBX")
      case 2 => (SUB, "SUBADDX")
      case 3 => (SUB, "SUB16")
      case 4 => (ADD, "ADD8")
      case 7 => (SUB, "SUB8")
      case _ => (Undefined, "");
    if prefix == "" || op == "" then (Undefined, Asm("UNDEFINED", []))
    else (kind, Asm(prefix + op + Cond(opcode), [Reg(U4(opcode >> 12)), Reg(U4(opcode >> 16)), Reg(U4(opcode))]))
  }

  /** evaluate_media: only the parallel add/subtract and extend groups set
      the type; every other group, and the undefined text, leave it as
      cleared.  In the SMMLA group the `case 3` label can never match a
      value masked with 0xc0, so only bits [7:6] = 00 decode. */
  function EvaluateMedia(opcode: bv32): (r: Descriptor)
    ensures r.opcode == opcode && r.size == 4
  {
    var d := ArmCleared(opcode);
    var rd := Reg(U4(opcode >> 12));
    var rn := Reg(U4(opcode >> 16));
    var rm := Reg(U4(opcode));
    var rs := Reg(U4(opcode >> 8));
    var undef := d.(text := Asm("UNDEFINED", []));
    if (opcode & 0x0180_0000) == 0 then
      var (kind, text) := EvaluatePAddSub(opcode);
      d.(kind := kind, text := text)
    else if (opcode & 0x01f0_0020) == 0x0080_0000 then
      var imm := U5(opcode >> 7);
      var tb := (opcode & (1 << 6)) != 0;
      d.(text := Asm("PKH" + (if tb then "TB" else "BT") + Cond(opcode),
                     [rd, rn, rm, if tb then ShiftImm(ASR, if imm == 0 then 32 else imm) else ShiftImm(LSL, imm)]))
    else if (opcode & 0x01a0_0020) == 0x00a0_0000 then
      var imm := U5(opcode >> 7);
      var asr := (opcode & (1 << 6)) != 0;
      d.(text := Asm((if (opcode & (1 << 22)) != 0 then "U" else "S") + "SAT" + Cond(opcode),
                     [rd, Imm(U5(opcode >> 16)), rm,
                      if asr then ShiftImm(ASR, if imm == 0 then 32 else imm) else ShiftImm(LSL, imm)]))
    else if (opcode & 0x0180_00f0) == 0x0080_0070 then
      var (kind, text) := EvaluateExtend(opcode);
      d.(kind := kind, text := text)
    else if (opcode & 0x01f0_0080) == 0x0100_0000 then
      var acc := U4(opcode >> 12);
      var sa := if (opcode & (1 << 6)) != 0 then "S" else "A";
      var x := if (opcode & (1 << 5)) != 0 then "X" else "";
      if acc != 0xf then d.(text := Asm("SML" + sa + "D" + x + Cond(opcode), [rn, rm, rs, Reg(acc)]))
      else d.(text := Asm("SMU" + sa + "D" + x + Cond(opcode), [rn, rm, rs]))
    else if (opcode & 0x01f0_0000) == 0x0140_0000 then
      var sa := if (opcode & (1 << 6)) != 0 then "S" else "A";
      var x := if (opcode & (1 << 5)) != 0 then "X" else "";
      d.(text := Asm("SML" + sa + "LD" + x + Cond(opcode), [rd, rn, rm, rs]))
    else if (opcode & 0x01f0_0000) == 0x0150_0000 then
      var acc := U4(opcode >> 12);
      var sel := opcode & 0xc0;
      var accepted := if sel == 3 then acc != 0xf else sel == 0;
      var round := if (opcode & (1 << 5)) != 0 then "R" else "";
      if !accepted then undef
      else if acc != 0xf then
        d.(text := Asm("SMML" + (if (opcode & (1 << 6)) != 0 then "S" else "A") + round + Cond(opcode),
                       [rn, rm, rs, Reg(acc)]))
      else d.(text := Asm("SMMUL" + round + Cond(opcode), [rn, rm, rs]))
    else
      var group := opcode & 0x01f0_00f0;
      if group == 0x00a0_0030 || group == 0x00e0_0030 then
        d.(text := Asm((if (opcode & (1 << 22)) != 0 then "U" else "S") + "SAT16" + Cond(opcode),
                       [rd, Imm(U4(opcode >> 16)), rm]))
      else if group == 0x00b0_0030 then d.(text := Asm("REV" + Cond(opcode), [rm, rd]))
      else if group == 0x00b0_00b0 then d.(text := Asm("REV16" + Cond(opcode), [rm, rd]))
      else if group == 0x00f0_00b0 then d.(text := Asm("REVSH" + Cond(opcode), [rm, rd]))
      else if group == 0x0080_00b0 then d.(text := Asm("SEL" + Cond(opcode), [rd, rn, rm]))
      else if group == 0x0180_0010 then
        if U4(opcode >> 12) == 0xf then d.(text := Asm("USAD8" + Cond(opcode), [rn, rm, rs]))
        else d.(text := Asm("USADA8" + Cond(opcode), [rn, rm, rs, rd]))
      else undef
  }

  /** The type, operation and suffix of a miscellaneous load/store from
      its S, L and H bits; S without L encodes the doubleword forms. */
  function MiscLoadStoreKind(S: int, L: int, H: int): (InstrType, string, string)
  {
    if S == 1 then
      if L == 1 then (if H == 1 then (LDRSH, "LDR", "SH") else (LDRSB, "LDR", "SB"))
      else (if H == 1 then (STRD, "STR", "D") else (LDRD, "LDR", "D"))
    else
      (if L == 1 then LDRH else STRH, if L == 1 then "LDR" else "STR", "H")
  }

  /** evaluate_misc_load_store: halfword, signed and doubleword transfers
      with an 8-bit split immediate or a plain register offset. */
  function EvaluateMiscLoadStore(opcode: bv32): (r: Descriptor)
    ensures r.opcode == opcode && r.size == 4
  {
    var P := U1(opcode >> 24);
    var U := U1(opcode >> 23);
    var I := U1(opcode >> 22);
    var W := U1(opcode >> 21);
    var L := U1(opcode >> 20);
    var S := U1(opcode >> 6);
    var H := U1(opcode >> 5);
    var Rd := U4(opcode >> 12);
    var Rn := U4(opcode >> 16);
    var (kind, operation, suffix) := MiscLoadStoreKind(S, L, H);
    var (offset, offsetText) :=
      if I == 1 then
        var offset8 := ((opcode & 0xf00) >> 4) | (opcode & 0xf);
        (ImmOffset(offset8), SignedBy(U == 1, Imm(offset8 as int)))
      else
        (RegOffset(U4(opcode), 0, 0), SignedBy(U == 1, Reg(U4(opcode))));
    var indexMode := IndexModeOf(P, W);
    ArmCleared(opcode).(
      kind := kind,
      text := Asm(operation + Cond(opcode) + suffix, [Reg(Rd), Mem(Reg(Rn), IndexOf(indexMode), [offsetText])]),
      info := LoadStore(Rd, Rn, U, indexMode, offset))
  }

  /** The addressing mode number and its mnemonic suffix from the P and U
      bits (IA, the default, prints as nothing). */
  function LdmStmMode(P: int, U: int): (int, string)
  {
    if P == 1 then (if U == 1 then (1, "IB") else (3, "DB"))
    else (if U == 1 then (0, "") else (2, "DA"))
  }

  /** evaluate_ldm_stm. */
  function EvaluateLdmStm(opcode: bv32): (r: Descriptor)
    ensures r.opcode == opcode && r.size == 4
  {
    var P := U1(opcode >> 24);
    var U := U1(opcode >> 23);
    var S := U1(opcode >> 22);
    var W := U1(opcode >> 21);
    var L := U1(opcode >> 20);
    var registerList := opcode & 0xffff;
    var Rn := U4(opcode >> 16);
    var (mode, modeText) := LdmStmMode(P, U);
    ArmCleared(opcode).(
      kind := if L == 1 then LDM else STM,
      text := Asm((if L == 1 then "LDM" else "STM") + modeText + Cond(opcode),
                  [WithWriteBack(W == 1, Reg(Rn)), RegList(RegisterList(registerList), S == 1)]),
      info := LoadStoreMultiple(Rn, registerList, mode, S, W))
  }

  /** evaluate_mul_and_extra_ld_st: multiplies and swaps need bits [7:4] =
      1001; everything else here is a miscellaneous load/store. */
  function EvaluateMulAndExtraLdSt(opcode: bv32): (r: Descriptor)
    ensures r.opcode == opcode && r.size == 4
  {
    var Rm := Reg(U4(opcode));
    var Rs := Reg(U4(opcode >> 8));
    var r12 := Reg(U4(opcode >> 12));
    var r16 := Reg(U4(opcode >> 16));
    var S := if (opcode & 0x0010_0000) != 0 then "S" else "";
    var group := opcode & 0x0f80_0000;
    if (opcode & 0xf0) == 0x90 && group == 0 then
      if (opcode & 0x0020_0000) != 0 then
        ArmCleared(opcode).(kind := MLA, text := Asm("MLA" + Cond(opcode) + S, [r16, Rm, Rs, r12]))
      else
        ArmCleared(opcode).(kind := MUL, text := Asm("MUL" + Cond(opcode) + S, [r16, Rm, Rs]))
    else if (opcode & 0xf0) == 0x90 && group == 0x0080_0000 then
      var (kind, mnemonic) := match (opcode & 0x0060_0000) >> 21
        case 0 => (UMULL, "UMULL")
        case 1 => (UMLAL, "UMLAL")
        case 2 => (SMULL, "SMULL")
        case _ => (SMLAL, "SMLAL");
      ArmCleared(opcode).(kind := kind, text := Asm(mnemonic + Cond(opcode) + S, [r16, r12, Rm, Rs]))
    else if (opcode & 0xf0) == 0x90 && group == 0x0100_0000 then
      var byte := (opcode & 0x0040_0000) != 0;
      ArmCleared(opcode).(
        kind := if byte then SWPB else SWP,
        text := Asm((if byte then "SWPB" else "SWP") + Cond(opcode), [r12, Rm, Mem(r16, Offset, [])]))
    else
      EvaluateMiscLoadStore(opcode)
  }

  /** evaluate_mrs_msr, applied to the descriptor as the caller has it (the
      miscellaneous group calls it and then keeps testing).  The immediate
      form's rotation is read into an eight-bit variable from bits
      [11:8], so it is always zero and the immediate shows unrotated. */
  function EvaluateMrsMsr(opcode: bv32, d: Descriptor): (r: Descriptor)
    ensures r.opcode == d.opcode && r.size == d.size && r.info == d.info
  {
    var psr := if (opcode & 0x0040_0000) >> 22 != 0 then "SPSR" else "CPSR";
    if (opcode & 0x0020_0000) != 0 then
      var fields := psr + "_"
        + (if (opcode & 0x1_0000) != 0 then "c" else "")
        + (if (opcode & 0x2_0000) != 0 then "x" else "")
        + (if (opcode & 0x4_0000) != 0 then "s" else "")
        + (if (opcode & 0x8_0000) != 0 then "f" else "");
      if (opcode & 0x0200_0000) != 0 then
        var immediate := Low8(opcode & 0xff);
        var rotate := Low8(opcode & 0xf00);
        d.(kind := MSR, text := Asm("MSR" + Cond(opcode), [Named(fields), Num(Ror(immediate, rotate * 2) as int)]))
      else
        d.(kind := MSR, text := Asm("MSR" + Cond(opcode), [Named(fields), Reg(U4(opcode))]))
    else
      d.(kind := MRS, text := Asm("MRS" + Cond(opcode), [Reg(U4(opcode >> 12)), Named(psr)]))
  }

  /** The enhanced DSP multiply block of evaluate_misc_instr with the
      operation field compared as the source writes it: bits [22:21] are
      compared against 0x00100000 and 0x00300000, values that have bit 20
      set and so never equal the masked field.  Only SMLA<x><y> and
      SMLAL<x><y> can fire. */
  function EvaluateDspMultiplyAsWritten(opcode: bv32, d: Descriptor): (r: Descriptor)
    ensures r.opcode == d.opcode && r.size == d.size && r.info == d.info
  {
    var x := U1(opcode >> 5);
    var y := U1(opcode >> 6);
    var xy := (if x == 1 then "T" else "B") + (if y == 1 then "T" else "B");
    var ys := if y == 1 then "T" else "B";
    var Rm := Reg(U4(opcode));
    var Rs := Reg(U4(opcode >> 8));
    var r12 := Reg(U4(opcode >> 12));
    var r16 := Reg(U4(opcode >> 16));
    var op := opcode & 0x0060_0000;
    var d1 := if op == 0 then d.(kind := SMLAxy, text := Asm("SMLA" + xy + Cond(opcode), [r16, Rm, Rs, r12])) else d;
    var d2 := if op == 0x0040_0000 then d1.(kind := SMLAxy, text := Asm("SMLA" + xy + Cond(opcode), [r12, r16, Rm, Rs])) else d1;
    var d3 := if op == 0x0010_0000 && x == 0 then d2.(kind := SMLAWy, text := Asm("SMLAW" + ys + Cond(opcode), [r16, Rm, Rs, r12])) else d2;
    var d4 := if op == 0x0030_0000 then d3.(kind := SMULxy, text := Asm("SMULW" + xy + Cond(opcode), [r16, Rm, Rs])) else d3;
    if op == 0x0010_0000 && x == 1 then d4.(kind := SMULWy, text := Asm("SMULW" + ys + Cond(opcode), [r16, Rm, Rs])) else d4
  }

  /** The enhanced DSP multiply block with the operation field compared
      against the values bits [22:21] can hold: 01 is SMLAW<y> (x = 0) or
      SMULW<y> (x = 1), 11 is SMUL<x><y>.  Mnemonics and operand orders are
      as the source prints them. */
  function EvaluateDspMultiply(opcode: bv32, d: Descriptor): (r: Descriptor)
    ensures r.opcode == d.opcode && r.size == d.size && r.info == d.info
  {
    var x := U1(opcode >> 5);
    var y := U1(opcode >> 6);
    var xy := (if x == 1 then "T" else "B") + (if y == 1 then "T" else "B");
    var ys := if y == 1 then "T" else "B";
    var Rm := Reg(U4(opcode));
    var Rs := Reg(U4(opcode >> 8));
    var r12 := Reg(U4(opcode >> 12));
    var r16 := Reg(U4(opcode >> 16));
    var op := opcode & 0x0060_0000;
    var d1 := if op == 0 then d.(kind := SMLAxy, text := Asm("SMLA" + xy + Cond(opcode), [r16, Rm, Rs, r12])) else d;
    var d2 := if op == 0x0040_0000 then d1.(kind := SMLAxy, text := Asm("SMLA" + xy + Cond(opcode), [r12, r16, Rm, Rs])) else d1;
    var d3 := if op == 0x0020_0000 && x == 0 then d2.(kind := SMLAWy, text := Asm("SMLAW" + ys + Cond(opcode), [r16, Rm, Rs, r12])) else d2;
    var d4 := if op == 0x0060_0000 then d3.(kind := SMULxy, text := Asm("SMULW" + xy + Cond(opcode), [r16, Rm, Rs])) else d3;
    if op == 0x0020_0000 && x == 1 then d4.(kind := SMULWy, text := Asm("SMULW" + ys + Cond(opcode), [r16, Rm, Rs])) else d4
  }

  /** The tests of evaluate_misc_instr before its DSP multiply block: a
      sequence of independent tests, each of which overwrites the
      descriptor when its pattern matches (a register branch stores -1 as
      its target). */
  function MiscInstrTests(opcode: bv32): (r: Descriptor)
    ensures r.opcode == opcode && r.size == 4
  {
    var Rm := U4(opcode);
    var Rd := U4(opcode >> 12);
    var Rn := U4(opcode >> 16);
    var d0 := ArmCleared(opcode);
    var d1 := if (opcode & 0xf0) == 0 then EvaluateMrsMsr(opcode, d0) else d0;
    var d2 := if (opcode & 0x0060_00f0) == 0x0020_0010 then
        d1.(kind := BX, text := Asm("BX" + Cond(opcode), [Reg(Rm)]), info := Branch(Rm, AllOnes))
      else d1;
    var d3 := if (opcode & 0x0060_00f0) == 0x0020_0020 then
        d2.(kind := BX, text := Asm("BXJ" + Cond(opcode), [Reg(Rm)]), info := Branch(Rm, AllOnes))
      else d2;
    var d4 := if (opcode & 0x0060_00f0) == 0x0060_0010 then
        d3.(kind := CLZ, text := Asm("CLZ" + Cond(opcode), [Reg(Rd), Reg(Rm)]))
      else d3;
    var d5 := if (opcode & 0x0060_00f0) == 0x0020_0030 then
        d4.(kind := BLX, text := Asm("BLX" + Cond(opcode), [Reg(Rm)]), info := Branch(Rm, AllOnes))
      else d4;
    var d6 := if (opcode & 0xf0) == 0x50 then
        var (kind, mnemonic) := match (opcode & 0x0060_0000) >> 21
          case 0 => (QADD, "QADD")
          case 1 => (QSUB, "QSUB")
          case 2 => (QDADD, "QDADD")
          case _ => (QDSUB, "QDSUB");
        d5.(kind := kind, text := Asm(mnemonic + Cond(opcode), [Reg(Rd), Reg(Rm), Reg(Rn)]))
      else d5;
    var d7 := if (opcode & 0xf0) == 0x70 then
        d6.(kind := BKPT, text := Asm("BKPT", [Num((((opcode & 0x000f_ff00) >> 4) | (opcode & 0xf)) as int)]))
      else d6;
    d7
  }

  /** evaluate_misc_instr as written: the DSP multiply block, entered when
      bit 7 is set and bit 4 clear, runs with the source's comparisons. */
  function EvaluateMiscInstr(opcode: bv32): (r: Descriptor)
    ensures r.opcode == opcode && r.size == 4
  {
    var d := MiscInstrTests(opcode);
    if (opcode & 0x90) == 0x80 then EvaluateDspMultiplyAsWritten(opcode, d) else d
  }

  /** evaluate_misc_instr with the DSP multiply comparisons corrected. */
  function EvaluateMiscInstrCorrected(opcode: bv32): (r: Descriptor)
    ensures r.opcode == opcode && r.size == 4
  {
    var d := MiscInstrTests(opcode);
    if (opcode & 0x90) == 0x80 then EvaluateDspMultiply(opcode, d) else d
  }

  /** The type and mnemonic of each data-processing operation. */
  function DataProcOperation(op: int): (InstrType, string)
  {
    match op
    case 0x0 => (AND, "AND")
    case 0x1 => (EOR, "EOR")
    case 0x2 => (SUB, "SUB")
    case 0x3 => (RSB, "RSB")
    case 0x4 => (ADD, "ADD")
    case 0x5 => (ADC, "ADC")
    case 0x6 => (SBC, "SBC")
    case 0x7 => (RSC, "RSC")
    case 0x8 => (TST, "TST")
    case 0x9 => (TEQ, "TEQ")
    case 0xa => (CMP, "CMP")
    case 0xb => (CMN, "CMN")
    case 0xc => (ORR, "ORR")
    case 0xd => (MOV, "MOV")
    case 0xe => (BIC, "BIC")
    case _ => (MVN, "MVN")
  }

  /** The shifter operand of a data-processing instruction and its
      rendering.  An immediate-shift operand is stored with its raw shift
      fields; only the text uses the normalised ones. */
  function DataProcShifter(opcode: bv32): (r: (ShifterOperand, seq<Operand>))
    ensures r.0.Immediate? <==> (opcode & 0x0200_0000) != 0
    ensures r.0.RegisterShift? <==> (opcode & 0x0200_0000) == 0 && (opcode & 0x10) != 0
    ensures r.0.Immediate? ==> r.1 == [Imm(r.0.immediate as int)]
    ensures !r.0.Immediate? ==> r.0.Rm == U4(opcode) && |r.1| > 0 && r.1[0] == Reg(U4(opcode))
  {
    if (opcode & 0x0200_0000) != 0 then
      var immed8 := opcode & 0xff;
      var rotateImm := (opcode & 0xf00) >> 8;
      var immediate := Ror(immed8, rotateImm * 2);
      (Immediate(immediate), [Imm(immediate as int)])
    else
      var shift := U2(opcode >> 5);
      var Rm := U4(opcode);
      if (opcode & 0x10) != 0x10 then
        var shiftImm := U5(opcode >> 7);
        var (nShift, nImm) := NormalizeShift(shift, shiftImm);
        (ImmediateShift(Rm, shift, shiftImm), ShiftedOperands(Reg(Rm), nShift, nImm))
      else
        var Rs := U4(opcode >> 8);
        (RegisterShift(Rm, shift, Rs), [Reg(Rm), ShiftReg(ShiftKindOf(shift), Rs)])
  }

  /** evaluate_data_proc: the sixteen operations in three text layouts;
      MOV r0, r0 (0xE1A00000) prints as NOP. */
  function EvaluateDataProc(opcode: bv32): (r: Descriptor)
    ensures r.opcode == opcode && r.size == 4
  {
    var op := U4(opcode >> 21);
    var S := U1(opcode >> 20);
    var Rd := U4(opcode >> 12);
    var Rn := U4(opcode >> 16);
    var (kind, mnemonic) := DataProcOperation(op);
    var (operand, shifterText) := DataProcShifter(opcode);
    var s := if S == 1 then "S" else "";
    var text :=
      if op < 8 || op == 0xc || op == 0xe then Asm(mnemonic + Cond(opcode) + s, [Reg(Rd), Reg(Rn)] + shifterText)
      else if op == 0xd || op == 0xf then
        (if opcode == 0xe1a0_0000 then Asm("NOP", []) else Asm(mnemonic + Cond(opcode) + s, [Reg(Rd)] + shifterText))
      else Asm(mnemonic + Cond(opcode), [Reg(Rn)] + shifterText);
    ArmCleared(opcode).(kind := kind, text := text, info := DataProc(Rd, Rn, S, operand))
  }

  /** The condition-field-1111 block of arm_evaluate_opcode; None when it
      falls through to the class dispatch (bits [27:24] = 1110). */
  function ArmUnconditional(opcode: bv32, address: bv32): (r: Option<Descriptor>)
    ensures r.Some? ==> r.value.opcode == opcode && r.value.size == 4
  {
    if (opcode & 0x0800_0000) == 0 then Some(EvaluatePld(opcode))
    else if (opcode & 0x0e00_0000) == 0x0800_0000 then Some(EvaluateSrs(opcode))
    else if (opcode & 0x0e00_0000) == 0x0a00_0000 then Some(EvaluateBlxImm(opcode, address))
    else if (opcode & 0x0e00_0000) == 0x0c00_0000 then Some(EvaluateLdcStcMcrrMrrc(opcode))
    else if (opcode & 0x0f00_0100) == 0x0c00_0000 then Some(EvaluateCdpMcrMrc(opcode))
    else if (opcode & 0x0f00_0010) == 0x0c00_0010 then Some(EvaluateCdpMcrMrc(opcode))
    else if (opcode & 0x0f00_0000) == 0x0f00_0000 then Some(EvaluateUnknown(opcode))
    else None
  }

  /** arm_evaluate_opcode: clear the descriptor, then dispatch on the
      condition and class bits.  The trailing "should never reach" return
      of -1 is unreachable: every opcode is decoded with status 0, and the
      descriptor always records the opcode and the four-byte size. */
  function ArmEvaluateOpcode(opcode: bv32, address: bv32): (r: Evaluation)
    ensures r.status == 0
    ensures r.desc.opcode == opcode && r.desc.size == 4
  {
    var unconditional :=
      if (opcode & 0xf000_0000) == 0xf000_0000 then ArmUnconditional(opcode, address) else None;
    var undefined := ArmCleared(opcode).(kind := Undefined, text := Asm("UNDEFINED INSTRUCTION", []));
    var group := opcode & 0x0e00_0000;
    if unconditional.Some? then Evaluation(0, unconditional.value)
    else if group == 0 then
      if (opcode & 0x90) == 0x90 then Evaluation(0, EvaluateMulAndExtraLdSt(opcode))
      else if (opcode & 0x0f90_0000) == 0x0100_0000 then Evaluation(0, EvaluateMiscInstr(opcode))
      else Evaluation(0, EvaluateDataProc(opcode))
    else if group == 0x0200_0000 then
      if (opcode & 0x0fb0_0000) == 0x0300_0000 then Evaluation(0, undefined)
      else if (opcode & 0x0fb0_0000) == 0x0320_0000 then Evaluation(0, EvaluateMrsMsr(opcode, ArmCleared(opcode)))
      else Evaluation(0, EvaluateDataProc(opcode))
    else if group == 0x0400_0000 then Evaluation(0, EvaluateLoadStore(opcode))
    else if group == 0x0600_0000 then
      if (opcode & 0x10) == 0 then Evaluation(0, EvaluateLoadStore(opcode))
      else if (opcode & 0x07f0_00f0) == 0x07f0_00f0 then
        Evaluation(0, ArmCleared(opcode).(kind := Undefined, text := Asm("UNDEF", [])))
      else Evaluation(0, EvaluateMedia(opcode))
    else if group == 0x0800_0000 then Evaluation(0, EvaluateLdmStm(opcode))
    else if group == 0x0a00_0000 then Evaluation(0, EvaluateBBl(opcode, address))
    else if group == 0x0c00_0000 then Evaluation(0, EvaluateLdcStcMcrrMrrc(opcode))
    else if group == 0x0e00_0000 && (opcode & 0x0f00_0000) == 0x0f00_0000 then Evaluation(0, EvaluateSwi(opcode))
    else if group == 0x0e00_0000 && (opcode & 0x0f00_0010) == 0x0e00_0000 then Evaluation(0, EvaluateCdpMcrMrc(opcode))
    else if group == 0x0e00_0000 && (opcode & 0x0f00_0010) == 0x0e00_0010 then Evaluation(0, EvaluateCdpMcrMrc(opcode))
    else Evaluation(-1, ArmCleared(opcode))
  }
}
