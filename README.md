# ARM/Thumb disassembler and clock multiplexer

This project models two pieces of the xboot kernel and proves properties of
them.

**The ARM/Thumb instruction decoder** (`src/arch/arm/lib/cpu/disassembler.c`).
`arm_evaluate_opcode` takes a 32-bit ARM word and `thumb_evaluate_opcode`
takes a 16-bit Thumb halfword. Each clears an instruction record, fills in:

- the instruction type;
- the decoded fields: the data-processing, load/store, load/store-multiple
  or branch information;
- the opcode and the instruction size;
- a line of assembly text.

It then returns a status code.

In the model:

- The record is a `Descriptor` value. Each `evaluate_*` routine is a pure
  function from the opcode (and the fetch address, where the routine uses
  it) to the descriptor it leaves behind.
- The text is kept as a mnemonic string plus structured operands, in the
  order the source prints them.
- The record's union of information blocks is a tagged `Info`.
- The register-list rendering loop is a method proved against a
  specification function.

The modules are:

- `DisasmTypes`: the data model.
- `DisasmCommon`: the condition table, `ror`, field extraction and the
  register list.
- `ArmDecoder` and `ThumbDecoder`: the two decoders.
- `ArmProperties` and `ThumbProperties`: what the decoders guarantee over
  all opcodes.

**The clock multiplexer** (`src/driver/clk/clk-mux.c`). A mux selects its
parent clock by writing a selector value into a `width`-bit field at bit
`shift` of a 32-bit register. A table maps parent names to selector values.
The module `ClkMux` models the mux as a class `Mux`:

- the register is a mutable field that stands for the mapped address;
- the table is a sequence of `Parent` entries;
- the six clock operations are methods, proved against specification
  functions (`RegisterAfterSet`, `ParentOf`);
- lemmas prove that the field write keeps the other bits, that the value
  reads back, and that setting then getting a parent round-trips.

Machine words are `bv32`/`bv16`, so every address computation wraps modulo
2^32 as in the source. Register numbers and other small fields are `int`.

## Model

| member | source | states |
|---|---|---|
| DisasmCommon.Ror | src/arch/arm/lib/cpu/disassembler.c:21-24 | the shift-and-or formula rotates right: for every even amount it equals the rotation of the value by that many places |
| DisasmCommon.Cond | src/arch/arm/lib/cpu/disassembler.c:11 | the suffix of bits [31:28] has at most two letters and is empty exactly for the always condition 1110 |
| ArmProperties.RorByZero | src/arch/arm/lib/cpu/disassembler.c:21-24 | rotating by 0 returns the value unchanged (the left shift by 32 contributes nothing) |
| ArmProperties.ConditionSuffix | src/arch/arm/lib/cpu/disassembler.c:11-16 | the condition table has 16 entries, entry 14 is empty and 15 is "NV"; the suffix is the entry of bits [31:28], and it is empty exactly for AL (1110) |
| DisasmCommon.RenderRegisterList | src/arch/arm/lib/cpu/disassembler.c:996-1011 | the loop over bits 0..15 produces exactly the list specified by RegisterList |
| DisasmCommon.RegisterListMembers | src/arch/arm/lib/cpu/disassembler.c:997-1010 | a register appears in the rendered list if and only if its bit is set in the mask |
| DisasmCommon.RegisterListAscending | src/arch/arm/lib/cpu/disassembler.c:997-1010 | the rendered registers are strictly ascending, so each appears once |
| DisasmCommon.RegsBelowMembers | src/arch/arm/lib/cpu/disassembler.c:997-1010 | after the first n iterations, the list holds exactly the set registers below n |
| DisasmCommon.RegsBelowAscending | src/arch/arm/lib/cpu/disassembler.c:997-1010 | after the first n iterations, the list is ascending and every entry is below n |
| ArmDecoder.ArmEvaluateOpcode | src/arch/arm/lib/cpu/disassembler.c:1570-1718 | every 32-bit word decodes with status 0 (the final -1 is unreachable), and the descriptor carries the opcode and size 4; the miscellaneous space runs the DSP multiply block as written |
| ArmDecoder.ArmUnconditional | src/arch/arm/lib/cpu/disassembler.c:1579-1613 | a descriptor produced in the condition-1111 space carries the opcode and size 4 |
| ArmDecoder.EvaluateUnknown | src/arch/arm/lib/cpu/disassembler.c:26-33 | the undefined-instruction descriptor carries the opcode and size 4 |
| ArmDecoder.EvaluatePld | src/arch/arm/lib/cpu/disassembler.c:35-48 | the PLD descriptor carries the opcode and size 4 |
| ArmDecoder.EvaluateSrs | src/arch/arm/lib/cpu/disassembler.c:50-90 | the SRS/RFE descriptor carries the opcode and size 4 |
| ArmDecoder.EvaluateSwi | src/arch/arm/lib/cpu/disassembler.c:92-101 | the SWI descriptor carries the opcode and size 4 |
| ArmDecoder.EvaluateBlxImm | src/arch/arm/lib/cpu/disassembler.c:103-133 | the BLX(1) descriptor carries the opcode and size 4 |
| ArmDecoder.EvaluateBBl | src/arch/arm/lib/cpu/disassembler.c:135-169 | the B/BL descriptor carries the opcode and size 4 |
| ArmDecoder.EvaluateLdcStcMcrrMrrc | src/arch/arm/lib/cpu/disassembler.c:175-263 | the coprocessor load/store descriptor carries the opcode and size 4 |
| ArmDecoder.EvaluateCdpMcrMrc | src/arch/arm/lib/cpu/disassembler.c:268-315 | the coprocessor data/register-transfer descriptor carries the opcode and size 4 |
| ArmDecoder.EvaluateLoadStore | src/arch/arm/lib/cpu/disassembler.c:318-484 | the single load/store descriptor carries the opcode and size 4 |
| ArmDecoder.EvaluateMedia | src/arch/arm/lib/cpu/disassembler.c:609-801 | the media descriptor carries the opcode and size 4 |
| ArmDecoder.EvaluateMiscLoadStore | src/arch/arm/lib/cpu/disassembler.c:804-929 | the halfword/doubleword load/store descriptor carries the opcode and size 4 |
| ArmDecoder.EvaluateLdmStm | src/arch/arm/lib/cpu/disassembler.c:932-1021 | the LDM/STM descriptor carries the opcode and size 4 |
| ArmDecoder.EvaluateMulAndExtraLdSt | src/arch/arm/lib/cpu/disassembler.c:1024-1114 | the multiply/swap/extra load-store descriptor carries the opcode and size 4 |
| ArmDecoder.EvaluateMrsMsr | src/arch/arm/lib/cpu/disassembler.c:1116-1168 | MRS/MSR keeps the opcode, size and information block of the descriptor it is given |
| ArmDecoder.EvaluateMiscInstr | src/arch/arm/lib/cpu/disassembler.c:1171-1360 | the miscellaneous-instruction routine as written: the earlier tests, then the DSP multiply block as written when bits 7 and 4 are 1 and 0; the descriptor carries the opcode and size 4 |
| ArmDecoder.MiscInstrTests | src/arch/arm/lib/cpu/disassembler.c:1171-1281 | the tests before the DSP multiply block leave a descriptor carrying the opcode and size 4 |
| ArmDecoder.EvaluateMiscInstrCorrected | src/arch/arm/lib/cpu/disassembler.c:1171-1360 | the same routine with the corrected DSP multiply block; the descriptor carries the opcode and size 4 |
| ArmDecoder.EvaluateDataProc | src/arch/arm/lib/cpu/disassembler.c:1362-1568 | the data-processing descriptor carries the opcode and size 4 |
| ArmDecoder.NormalizeShift | src/arch/arm/lib/cpu/disassembler.c:408-419 | a non-zero amount passes through unchanged; a zero amount is kept only by LSL and RRX (4), and RRX always carries amount 0; the amount stays at most 32 |
| ArmDecoder.BranchImmediate | src/arch/arm/lib/cpu/disassembler.c:143-148 | the top byte is all ones exactly when bit 23 is set and zero otherwise; a positive field is the low 24 bits unchanged |
| ArmDecoder.DataProcShifter | src/arch/arm/lib/cpu/disassembler.c:1362-1530 | the operand is an immediate exactly when I (bit 25) is set, a register-shifted register exactly when I is clear and bit 4 set; a register operand names Rm of bits [3:0] first |
| ArmDecoder.ExtendForm | src/arch/arm/lib/cpu/disassembler.c:493-535 | for a width selector of 0, 2 or 3 the text is an instruction of width B16, B or H; the selector 1 alone gives UNDEFINED |
| ArmDecoder.EvaluateExtend | src/arch/arm/lib/cpu/disassembler.c:486-536 | as written, the width selector is bits [25:24]: undefined exactly when they are 01, a case the media dispatch never passes (ExtendGateFixesWidth); the text is always an instruction |
| ArmDecoder.EvaluateExtendCorrected | src/arch/arm/lib/cpu/disassembler.c:486-536 | with the selector read from bits [21:20], undefined exactly when they are 01; the text is always an instruction |
| ArmDecoder.EvaluatePAddSub | src/arch/arm/lib/cpu/disassembler.c:538-607 | undefined exactly when bits [22:20] are 000 or 100 or bits [7:5] are 101 or 110, and then the text is UNDEFINED |
| ArmDecoder.EvaluateDspMultiplyAsWritten | src/arch/arm/lib/cpu/disassembler.c:1282-1357 | the DSP multiply block as written keeps the opcode, size and information block |
| ArmDecoder.EvaluateDspMultiply | src/arch/arm/lib/cpu/disassembler.c:1282-1357 | the corrected DSP multiply block keeps the opcode, size and information block |
| ArmProperties.DataProcImmediate | src/arch/arm/lib/cpu/disassembler.c:1362-1378 | for class 001 outside the undefined and MSR patterns: the operand is variant 0 holding imm8 rotated right by twice bits [11:8]; Rd, Rn and S come from bits 15-12, 19-16 and 20; the type is the one bits [24:21] select |
| ArmProperties.DataProcImmediateExample | src/arch/arm/lib/cpu/disassembler.c:1448-1461 | 0xE3A008FF decodes as MOV r0 with the immediate 0x00FF0000 |
| ArmProperties.DataProcOperationsDistinct | src/arch/arm/lib/cpu/disassembler.c:1380-1446 | the 16 operation codes select 16 different types |
| ArmProperties.DataProcNop | src/arch/arm/lib/cpu/disassembler.c:1551-1556 | within data processing, the text is a bare NOP if and only if the word is 0xE1A00000 |
| ArmProperties.DataProcImmediateShift | src/arch/arm/lib/cpu/disassembler.c:1462-1530 | the immediate-shift record keeps the raw Rm, shift and amount; the text shows LSR #0 and ASR #0 as #32, ROR #0 as RRX, and LSL #0 as the bare register |
| ArmProperties.NormalizeShiftCases | src/arch/arm/lib/cpu/disassembler.c:408-419 | shift normalisation: ROR by 0 becomes RRX and nothing else does; LSR/ASR by 0 become 32 and nothing else does; all other shifts pass through |
| ArmProperties.LoadStoreRecordsNormalizedShift | src/arch/arm/lib/cpu/disassembler.c:400-424 | a register-offset load/store records the normalised shift and amount |
| ArmProperties.RoutesToLoadStore | src/arch/arm/lib/cpu/disassembler.c:1649-1660 | classes 010, and 011 with bit 4 clear, outside the 1111 space, are decoded by the load/store routine |
| ArmProperties.LoadStoreDecoderFlags | src/arch/arm/lib/cpu/disassembler.c:318-484 | the load/store routine's flag tables, each as an if-and-only-if (see LoadStoreFlags) |
| ArmProperties.LoadStoreFlags | src/arch/arm/lib/cpu/disassembler.c:318-484 | single load/store: index mode 0/1/2 from P and W; the T forms exactly when P=0 and W=1; byte forms exactly when B; loads exactly when L; an immediate offset exactly when I=0; U from bit 23 |
| ArmProperties.MiscLoadStoreTable | src/arch/arm/lib/cpu/disassembler.c:804-929 | halfword/doubleword table: S=0 gives LDRH/STRH by L; S=1 gives LDRSH/LDRSB with L and STRD/LDRD without, by H; the immediate offset joins bits [11:8] and [3:0]; the register form records Rm unshifted |
| ArmProperties.MiscLoadStoreImmediateBound | src/arch/arm/lib/cpu/disassembler.c:880-886 | the split immediate fits in 8 bits |
| ArmProperties.RoutesToLdmStm | src/arch/arm/lib/cpu/disassembler.c:1679-1683 | class 100 outside the 1111 space is decoded as LDM/STM |
| ArmProperties.LdmStmRecord | src/arch/arm/lib/cpu/disassembler.c:932-994 | LDM exactly when L; addressing mode IA 0, IB 1, DA 2, DB 3 from P and U; the register list is the low halfword unchanged |
| ArmProperties.LdmStmText | src/arch/arm/lib/cpu/disassembler.c:996-1021 | the rendered list names a register if and only if its bit is set |
| ArmProperties.LdmStmModes | src/arch/arm/lib/cpu/disassembler.c:932-1021 | the LDM/STM record and rendered list, through the entry point |
| ArmProperties.BranchImmediateSigned | src/arch/arm/lib/cpu/disassembler.c:143-148 | ORing 0xff000000 into a negative 24-bit field gives its two's-complement value, on every opcode |
| ArmProperties.BBlKind | src/arch/arm/lib/cpu/disassembler.c:156-166 | B/BL is a branch record with register operand -1, of type BL exactly when bit 24 is set |
| ArmProperties.BBlTarget | src/arch/arm/lib/cpu/disassembler.c:141-154 | the B/BL target is address + 8 + (sign-extended field << 2), modulo 2^32 |
| ArmProperties.BranchTarget | src/arch/arm/lib/cpu/disassembler.c:1686-1690 | through the entry point, class 101 gives the B/BL type, record and target |
| ArmProperties.BlxImmKind | src/arch/arm/lib/cpu/disassembler.c:103-133 | BLX(1) is a BLX branch record with register operand -1 |
| ArmProperties.BlxImmTarget | src/arch/arm/lib/cpu/disassembler.c:109-125 | the BLX(1) target is address + 8 + the scaled sign-extended field, with 2 ORed in when H (bit 24) is set |
| ArmProperties.BlxImmediateTarget | src/arch/arm/lib/cpu/disassembler.c:1590-1591 | through the entry point, class 101 in the 1111 space gives BLX with that target |
| ArmProperties.McrrMrrcPatterns | src/arch/arm/lib/cpu/disassembler.c:179-180 | MCRR decodes as MCRR; MRRC matches neither half of the duplicated test and decodes as LDC |
| ArmProperties.CoprocessorOffsetTruncated | src/arch/arm/lib/cpu/disassembler.c:214-221 | the offset held in eight bits keeps only imm8's low six bits, times four |
| ArmProperties.CoprocessorOffsetExample | src/arch/arm/lib/cpu/disassembler.c:214-221 | 0xED900140 (offset 0x100) is shown with offset 0 |
| ArmProperties.MsrImmediateUnrotated | src/arch/arm/lib/cpu/disassembler.c:1129-1140 | MSR with an immediate shows imm8 unrotated whatever bits [11:8] hold |
| ArmProperties.MediaType | src/arch/arm/lib/cpu/disassembler.c:620-675 | a media instruction keeps the cleared type if and only if it is neither parallel add/subtract nor an extend |
| ArmProperties.SmmlaAcceptance | src/arch/arm/lib/cpu/disassembler.c:712-723 | in the SMMLA group the text is UNDEFINED exactly when bits [7:6] are non-zero (the case 3 label cannot match) |
| ArmProperties.MiscBlocksExclusive | src/arch/arm/lib/cpu/disassembler.c:1171-1357 | no two blocks of the miscellaneous-instruction routine match the same word |
| ArmProperties.DspMultiplyAsWrittenSkips | src/arch/arm/lib/cpu/disassembler.c:1316-1357 | as written, with bit 21 set the DSP multiply block leaves the descriptor unchanged |
| ArmProperties.DspMultiplyAsWrittenExample | src/arch/arm/lib/cpu/disassembler.c:1282-1357 | 0xE1200080 (SMLAWB) decodes to nothing as written and to SMLAW once corrected |
| ArmProperties.DspMultiplyDecodesAll | src/arch/arm/lib/cpu/disassembler.c:1282-1357 | corrected: every DSP multiply word gets a DSP multiply type and text, agreeing with the written code wherever its tests fire |
| ArmProperties.RoutesToMiscInstr | src/arch/arm/lib/cpu/disassembler.c:1616-1627 | a conditional class-000 word with bits [24:23,20] = 100 that is not a multiply/extra load-store is decoded by the miscellaneous routine |
| ArmProperties.MiscTestsSkipDsp | src/arch/arm/lib/cpu/disassembler.c:1171-1281 | with bits 7 and 4 set and clear, none of the tests before the DSP block matches: the descriptor is the cleared one |
| ArmProperties.DspMultiplyEntryAsWritten | src/arch/arm/lib/cpu/disassembler.c:1282-1357 | through the entry point, every SMLAW/SMULW/SMUL word (bit 21 set) keeps the cleared type and text |
| ArmProperties.DspMultiplyEntryExample | src/arch/arm/lib/cpu/disassembler.c:1282-1357 | through the entry point, 0xE1200080 (SMLAWB) at any address decodes to the cleared descriptor |
| ArmProperties.MiscInstrCorrectedDsp | src/arch/arm/lib/cpu/disassembler.c:1282-1357 | with the comparisons corrected, every DSP multiply word gets an SMLA, SMLAW, SMUL or SMULW type and a text |
| ArmProperties.UnconditionalUndefined | src/arch/arm/lib/cpu/disassembler.c:1607-1612 | condition 1111 with bits [27:24] = 1111 is UNDEFINED INSTRUCTION with no information block |
| ArmProperties.RoutesToPld | src/arch/arm/lib/cpu/disassembler.c:1582-1583 | condition 1111 with bit 27 clear is decoded by the PLD routine |
| ArmProperties.PldFields | src/arch/arm/lib/cpu/disassembler.c:35-48 | PLD if and only if the preload pattern matches, undefined if and only if it does not; no information block |
| ArmProperties.RoutesToSrs | src/arch/arm/lib/cpu/disassembler.c:1586-1587 | condition 1111 with bits [27:25] = 100 is decoded by the SRS/RFE routine |
| ArmProperties.SrsFields | src/arch/arm/lib/cpu/disassembler.c:50-90 | undefined if and only if the group is neither SRS nor RFE; SRS and RFE keep the cleared type, with the mode suffix DA, (IA), DB or IB of bits [24:23] |
| ArmProperties.SrsWriteBack | src/arch/arm/lib/cpu/disassembler.c:50-90 | the SRS/RFE operand shows write-back if and only if W (bit 21) is set |
| ArmProperties.RoutesToSwi | src/arch/arm/lib/cpu/disassembler.c:1703-1704 | a conditional word with bits [27:24] = 1111 is decoded by the SWI routine |
| ArmProperties.SwiFields | src/arch/arm/lib/cpu/disassembler.c:92-101 | type SWI, mnemonic SVC, and the text depends only on the low 24 bits |
| ArmProperties.SwiRoundTrip | src/arch/arm/lib/cpu/disassembler.c:92-101 | SVC #n for every n below 2^24, encoded and decoded, shows n |
| ArmProperties.RoutesToCdpMcrMrc | src/arch/arm/lib/cpu/disassembler.c:1707-1712 | a conditional word with bits [27:24] = 1110 is decoded by the CDP/MCR/MRC routine |
| ArmProperties.CdpMcrMrcFields | src/arch/arm/lib/cpu/disassembler.c:268-315 | CDP if and only if bit 4 is clear; MRC if and only if bit 4 and L; MCR if and only if bit 4 and not L; six operands with the coprocessor, CRm and opcode2 fields |
| ArmProperties.RoutesToMulAndExtraLdSt | src/arch/arm/lib/cpu/disassembler.c:1619-1620 | a conditional class-000 word with bits 7 and 4 set is decoded by the multiply/extra load-store routine |
| ArmProperties.MultiplySwapKinds | src/arch/arm/lib/cpu/disassembler.c:1024-1072 | MLA if and only if A, else MUL; UMULL, UMLAL, SMULL, SMLAL by bits [22:21]; SWPB if and only if B, else SWP |
| ArmProperties.MulAndExtraLdStElse | src/arch/arm/lib/cpu/disassembler.c:1074-1114 | every other word of that space is decoded as a halfword/doubleword load/store |
| ArmProperties.RoutesToMedia | src/arch/arm/lib/cpu/disassembler.c:1656-1675 | a conditional class-011 word with bit 4 set, outside the permanently undefined pattern, is decoded by the media routine |
| ArmProperties.MediaDelegates | src/arch/arm/lib/cpu/disassembler.c:609-676 | bits [24:23] = 00 take type and text from the parallel add/subtract routine; the 01 xxxx 0111 pattern from the extend routine |
| ArmProperties.ExtendFields | src/arch/arm/lib/cpu/disassembler.c:486-536 | MOV if and only if Rn is 1111, ADD otherwise; U form if and only if bit 22; Rd first, Rm after Rn; ROR 8 times the rotation last when it is non-zero |
| ArmProperties.ExtendFormMnemonic | src/arch/arm/lib/cpu/disassembler.c:523-535 | the extend mnemonic is U or S by bit 22, XT when Rn is 1111 and XTA otherwise, the width B16, B or H of the selector, then the condition |
| ArmProperties.ExtendGateFixesWidth | src/arch/arm/lib/cpu/disassembler.c:673-674 | a class-011 word that passes the extend test has bits [25:24] = 10, so the as-written selector is always 2 |
| ArmProperties.ExtendEntryAsWritten | src/arch/arm/lib/cpu/disassembler.c:486-536 | through the entry point, every extend is a MOV or an ADD, never undefined, shown with width B whatever bits [21:20] select |
| ArmProperties.ExtendEntryExample | src/arch/arm/lib/cpu/disassembler.c:493-506 | through the entry point, 0xE6BF0070 (SXTH r0, r0) is shown as SXTB r0, r0 |
| ArmProperties.ExtendCorrectedWidth | src/arch/arm/lib/cpu/disassembler.c:493-535 | corrected: the width shown is B16, B or H as bits [21:20] are 00, 10 or 11 |
| ArmProperties.ExtendCorrectedExample | src/arch/arm/lib/cpu/disassembler.c:493-535 | corrected: 0xE6BF0070 decodes as MOV with the text SXTH r0, r0 |
| ArmProperties.PAddSubFields | src/arch/arm/lib/cpu/disassembler.c:538-607 | a defined form is ADD if and only if bits [7:5] are 000, 001 or 100, SUB if and only if 010, 011 or 111; the operands are Rd, Rn, Rm |
| ThumbDecoder.ThumbEvaluateOpcode | src/arch/arm/lib/cpu/disassembler.c:2597-2732 | every halfword decodes with status 0 (the final -1 is unreachable), and the descriptor carries the opcode and size 2 |
| ThumbDecoder.ThumbAlignPc4 | src/arch/arm/lib/cpu/disassembler.c:2095-2098 | the aligned PC is a multiple of 4, and at most 3 below address + 4 |
| ThumbDecoder.WordAlign | src/arch/arm/lib/cpu/disassembler.c:1745 | clearing the low two bits gives a multiple of 4, at most 3 below the value |
| ThumbDecoder.EvaluateBBlBlxThumb | src/arch/arm/lib/cpu/disassembler.c:1720-1777 | the B/BL/BLX descriptor carries the opcode and size 2 |
| ThumbDecoder.EvaluateAddSubThumb | src/arch/arm/lib/cpu/disassembler.c:1779-1823 | the add/subtract descriptor carries the opcode and size 2 |
| ThumbDecoder.EvaluateShiftImmThumb | src/arch/arm/lib/cpu/disassembler.c:1825-1869 | the shift-by-immediate descriptor carries the opcode and size 2 |
| ThumbDecoder.EvaluateDataProcImmThumb | src/arch/arm/lib/cpu/disassembler.c:1871-1912 | the immediate ALU descriptor carries the opcode and size 2 |
| ThumbDecoder.EvaluateDataProcThumb | src/arch/arm/lib/cpu/disassembler.c:1914-2092 | the register ALU descriptor carries the opcode and size 2; its fields are stated by ThumbAluKinds, ThumbAluMoveAndFlags, ThumbAluRecords (low registers), DataProcHighRecord (high-register text, 3-bit record and the undefined case), DataProcHighS, DataProcBranchExchange and DataProcNop (high registers) |
| ThumbDecoder.EvaluateDataProcThumbCorrected | src/arch/arm/lib/cpu/disassembler.c:1929-1938 | the same type and text as EvaluateDataProcThumb; the high-register ADD, CMP and MOV record the widened Rd and Rm (second half of a finding below) |
| ThumbDecoder.EvaluateLoadLiteralThumb | src/arch/arm/lib/cpu/disassembler.c:2100-2123 | the literal-load descriptor carries the opcode and size 2 |
| ThumbDecoder.EvaluateLoadStoreRegThumb | src/arch/arm/lib/cpu/disassembler.c:2125-2181 | the register-offset load/store descriptor carries the opcode and size 2 |
| ThumbDecoder.EvaluateLoadStoreImmThumb | src/arch/arm/lib/cpu/disassembler.c:2183-2228 | the immediate-offset load/store descriptor carries the opcode and size 2 |
| ThumbDecoder.EvaluateLoadStoreStackThumb | src/arch/arm/lib/cpu/disassembler.c:2230-2260 | the SP-relative load/store descriptor carries the opcode and size 2 |
| ThumbDecoder.EvaluateAddSpPcThumb | src/arch/arm/lib/cpu/disassembler.c:2262-2294 | the ADD to SP/PC descriptor carries the opcode and size 2 |
| ThumbDecoder.EvaluateAdjustStackThumb | src/arch/arm/lib/cpu/disassembler.c:2296-2325 | the SP adjustment descriptor carries the opcode and size 2 |
| ThumbDecoder.EvaluateBreakpointThumb | src/arch/arm/lib/cpu/disassembler.c:2327-2339 | the BKPT descriptor carries the opcode and size 2 |
| ThumbDecoder.EvaluateLoadStoreMultipleThumb | src/arch/arm/lib/cpu/disassembler.c:2341-2417 | the LDM/STM/PUSH/POP descriptor carries the opcode and size 2 |
| ThumbDecoder.EvaluateCondBranchThumb | src/arch/arm/lib/cpu/disassembler.c:2419-2459 | the conditional branch/SVC descriptor carries the opcode and size 2 |
| ThumbDecoder.EvaluateCbThumb | src/arch/arm/lib/cpu/disassembler.c:2461-2477 | the CBZ/CBNZ descriptor carries the opcode and size 2 |
| ThumbDecoder.EvaluateExtendThumb | src/arch/arm/lib/cpu/disassembler.c:2479-2491 | the extend descriptor carries the opcode and size 2 |
| ThumbDecoder.EvaluateCpsThumb | src/arch/arm/lib/cpu/disassembler.c:2493-2512 | the CPS/SETEND descriptor carries the opcode and size 2 |
| ThumbDecoder.EvaluateByterevThumb | src/arch/arm/lib/cpu/disassembler.c:2514-2537 | the byte-reverse descriptor carries the opcode and size 2 |
| ThumbDecoder.EvaluateHintThumb | src/arch/arm/lib/cpu/disassembler.c:2539-2570 | the hint descriptor carries the opcode and size 2 |
| ThumbDecoder.BranchOffsetThumb | src/arch/arm/lib/cpu/disassembler.c:1728-1730 | bits [31:11] are all ones exactly for B or the prefix with bit 10 set, zero otherwise; a positive field is the low 11 bits |
| ThumbDecoder.CondBranchOffsetThumb | src/arch/arm/lib/cpu/disassembler.c:2443-2445 | the low byte is the opcode's; bits [31:8] are all ones exactly when bit 7 is set |
| ThumbDecoder.EvaluateIfThenThumb | src/arch/arm/lib/cpu/disassembler.c:2572-2595 | the IT descriptor carries the opcode and size 2 |
| ThumbDecoder.EvaluateMiscThumb | src/arch/arm/lib/cpu/disassembler.c:2658-2697 | a descriptor from the miscellaneous group carries the opcode and size 2 |
| ThumbProperties.RoutesToCondBranch | src/arch/arm/lib/cpu/disassembler.c:2707-2710 | 1101 xxxx is decoded by the conditional-branch routine |
| ThumbProperties.RoutesToBBlBlx | src/arch/arm/lib/cpu/disassembler.c:2712-2727 | 111x xxxx, except the undefined pattern 11101 with bit 0 set, is decoded by the B/BL/BLX routine |
| ThumbProperties.RoutesToLoadLiteral | src/arch/arm/lib/cpu/disassembler.c:2627-2630 | 01001 xxx is decoded by the literal-load routine |
| ThumbProperties.RoutesToDataProc | src/arch/arm/lib/cpu/disassembler.c:2621-2624 | 010000 and 010001 are decoded by the ALU routine |
| ThumbProperties.RoutesToLoadStoreMultiple | src/arch/arm/lib/cpu/disassembler.c:2701-2704 | 1100 xxxx is decoded by the load/store-multiple routine |
| ThumbProperties.RoutesToMisc | src/arch/arm/lib/cpu/disassembler.c:2658-2698 | 1011 xxxx is decoded by the miscellaneous group |
| ThumbProperties.RoutesToPushPop | src/arch/arm/lib/cpu/disassembler.c:2670-2675 | 1011 x10x (PUSH/POP) is decoded by the load/store-multiple routine |
| ThumbProperties.RoutesToIfThen | src/arch/arm/lib/cpu/disassembler.c:2684-2687 | 1011 1111 with a non-zero mask is decoded by the IT routine |
| ThumbProperties.CondBranchOffsetSigned | src/arch/arm/lib/cpu/disassembler.c:2443-2445 | ORing 0xffffff00 into a negative 8-bit field gives its two's-complement value |
| ThumbProperties.CondBranchKind | src/arch/arm/lib/cpu/disassembler.c:2449-2456 | a condition below 1110 gives type B, register operand -1 and the mnemonic B plus the condition of bits [11:8] |
| ThumbProperties.CondBranchTarget | src/arch/arm/lib/cpu/disassembler.c:2443-2447 | the conditional-branch target is address + 4 + (sign-extended 8-bit field << 1) |
| ThumbProperties.CondBranchSvcUndefined | src/arch/arm/lib/cpu/disassembler.c:2426-2441 | condition 1111 is SVC with the 8-bit immediate, 1110 is undefined, and neither sets a branch record |
| ThumbProperties.ThumbCondBranch | src/arch/arm/lib/cpu/disassembler.c:2419-2459 | through the entry point: SVC, undefined, or B with that target, by condition |
| ThumbProperties.BranchOffsetSigned | src/arch/arm/lib/cpu/disassembler.c:1728-1730 | for B and the prefix, ORing 0xfffff800 into a negative 11-bit field gives its two's-complement value |
| ThumbProperties.BranchOffsetUnsigned | src/arch/arm/lib/cpu/disassembler.c:1728-1730 | for the BL and BLX suffixes the field is not extended |
| ThumbProperties.BBlBlxKind | src/arch/arm/lib/cpu/disassembler.c:1734-1758 | the type is B, BLX, the cleared type, or BL by bits [12:11], with register operand -1 |
| ThumbProperties.ThumbBTarget | src/arch/arm/lib/cpu/disassembler.c:1732 | B: address + 4 + (sign-extended 11-bit field << 1) |
| ThumbProperties.ThumbBlTarget | src/arch/arm/lib/cpu/disassembler.c:1753-1757 | BL suffix: address + 4 + (unsigned 11-bit field << 1) |
| ThumbProperties.BlxSuffixTarget | src/arch/arm/lib/cpu/disassembler.c:1742-1746 | BLX suffix: the unsigned target rounded down to a word |
| ThumbProperties.PrefixTarget | src/arch/arm/lib/cpu/disassembler.c:1748-1752 | prefix: the recorded value is the sign-extended field << 12, independent of the address |
| ThumbProperties.ThumbBranches | src/arch/arm/lib/cpu/disassembler.c:1720-1777 | through the entry point: each of the four forms' type, register operand and target |
| ThumbProperties.LoadLiteralRecord | src/arch/arm/lib/cpu/disassembler.c:2100-2114 | LDR with Rd from bits [10:8], base 15, U 0, offset mode 0 and offset imm8 * 4 (at most 1020) |
| ThumbProperties.LoadLiteralTarget | src/arch/arm/lib/cpu/disassembler.c:2116-2120 | the comment shows the aligned PC plus imm8 * 4 |
| ThumbProperties.LoadLiteralTargetAligned | src/arch/arm/lib/cpu/disassembler.c:2095-2120 | the address in the comment is word-aligned |
| ThumbProperties.LoadStoreMultipleRecord | src/arch/arm/lib/cpu/disassembler.c:2359-2414 | generic LDM/STM: LDM exactly when L, base bits [10:8], the 8-bit list unchanged, mode IA, and the rendered list |
| ThumbProperties.LoadStoreMultipleWriteBack | src/arch/arm/lib/cpu/disassembler.c:2361-2375 | write-back is shown if and only if the instruction is not an LDM whose list holds its own base |
| ThumbProperties.ThumbLoadStoreMultiple | src/arch/arm/lib/cpu/disassembler.c:2701-2704 | through the entry point, the LDM/STM record and the write-back rule |
| ThumbProperties.PushRecord | src/arch/arm/lib/cpu/disassembler.c:2387-2394 | PUSH is an STM on SP (13) in decrement-before mode (3) |
| ThumbProperties.PopRecord | src/arch/arm/lib/cpu/disassembler.c:2379-2386 | POP is an LDM on SP (13) in increment-after mode (0) |
| ThumbProperties.PushListMembers | src/arch/arm/lib/cpu/disassembler.c:2392-2393 | the PUSH list holds register r if and only if r is a set low register, or r is LR and R is set |
| ThumbProperties.PopListMembers | src/arch/arm/lib/cpu/disassembler.c:2384-2385 | the POP list holds register r if and only if r is a set low register, or r is PC and R is set |
| ThumbProperties.PushMembers | src/arch/arm/lib/cpu/disassembler.c:2387-2412 | the recorded PUSH list holds exactly those registers |
| ThumbProperties.PopMembers | src/arch/arm/lib/cpu/disassembler.c:2379-2412 | the recorded POP list holds exactly those registers |
| ThumbProperties.ThumbPush | src/arch/arm/lib/cpu/disassembler.c:2378-2410 | through the entry point, the PUSH text lists exactly those registers, LR with R |
| ThumbProperties.ThumbPop | src/arch/arm/lib/cpu/disassembler.c:2378-2410 | through the entry point, the POP text lists exactly those registers, PC with R |
| ThumbProperties.ThumbAluKinds | src/arch/arm/lib/cpu/disassembler.c:1993-2077 | each of the 16 low-register ops has its type and mnemonic (the shifts typed MOV), and the text names Rd and Rm of bits [2:0] and [5:3] |
| ThumbProperties.ThumbAluMoveAndFlags | src/arch/arm/lib/cpu/disassembler.c:1993-2077 | the type is MOV if and only if the op is one of the four shifts; the mnemonic ends in S if and only if the op is not TST, CMP or CMN |
| ThumbProperties.ThumbAluRecords | src/arch/arm/lib/cpu/disassembler.c:2003-2049 | the shifts record a register shift of Rd by Rm with kind LSL, LSR, ASR, ROR; RSBS records Rn = Rm and the immediate 0; the rest record Rn = Rd and Rm unshifted; S is 1 |
| ThumbProperties.DataProcLowS | src/arch/arm/lib/cpu/disassembler.c:1929-1931 | the low-register ALU forms record S = 1 and Rd from bits [2:0] |
| ThumbProperties.DataProcHighS | src/arch/arm/lib/cpu/disassembler.c:1931-1956 | high-register ADD, CMP and MOV have those types and record S = 0, CMP included |
| ThumbProperties.DataProcBranchExchange | src/arch/arm/lib/cpu/disassembler.c:1957-1976 | BX/BLX register: BLX exactly when H1, the 4-bit Rm as register operand, target 0 |
| ThumbProperties.DataProcNop | src/arch/arm/lib/cpu/disassembler.c:1951-1956 | a high-register MOV is shown as NOP if and only if Rd equals Rm |
| ThumbProperties.DataProcHighRecord | src/arch/arm/lib/cpu/disassembler.c:1929-1992 | for every high-register word: ADD/CMP/MOV (or NOP) show the 4-bit Rd and Rm but record the 3-bit fields of bits [2:0] and [5:3]; bits [9:8] = 11 with nonzero bits [2:0] is UNDEFINED INSTRUCTION; otherwise BX/BLX on the 4-bit Rm |
| ThumbProperties.DataProcHighCorrected | src/arch/arm/lib/cpu/disassembler.c:1929-1938 | corrected, the high-register ADD, CMP and MOV record exactly the Rd and Rm that their text shows |
| ThumbProperties.DataProcHighExample | src/arch/arm/lib/cpu/disassembler.c:2080-2088 | 0x46C8 is shown as MOV r8, r9 but records Rd = Rn = 0 and Rm = 1; corrected, it records 8, 8 and 9 |
| ThumbProperties.IfThenCondition | src/arch/arm/lib/cpu/disassembler.c:2572-2595 | IT: the mnemonic starts with IT, the only operand is the condition of bits [7:4], no type and no information block |
| ThumbProperties.ThumbIfThen | src/arch/arm/lib/cpu/disassembler.c:2684-2687 | through the entry point, IT names that condition |
| ThumbProperties.RoutesToAddSub | src/arch/arm/lib/cpu/disassembler.c:2607-2608 | 00011 xxx is decoded by the add/subtract routine |
| ThumbProperties.RoutesToShiftImm | src/arch/arm/lib/cpu/disassembler.c:2610-2611 | 000xx xxx other than 00011 is decoded by the shift-by-immediate routine |
| ThumbProperties.RoutesToDataProcImm | src/arch/arm/lib/cpu/disassembler.c:2615-2618 | 001xx xxx is decoded by the immediate ALU routine |
| ThumbProperties.RoutesToLoadStoreReg | src/arch/arm/lib/cpu/disassembler.c:2633-2636 | 0101 xxxx is decoded by the register-offset load/store routine |
| ThumbProperties.RoutesToLoadStoreImm | src/arch/arm/lib/cpu/disassembler.c:2639-2643 | 011x xxxx and 1000 xxxx are decoded by the immediate-offset load/store routine |
| ThumbProperties.RoutesToLoadStoreStack | src/arch/arm/lib/cpu/disassembler.c:2646-2649 | 1001 xxxx is decoded by the SP-relative load/store routine |
| ThumbProperties.RoutesToAddSpPc | src/arch/arm/lib/cpu/disassembler.c:2652-2655 | 1010 xxxx is decoded by the ADD to SP/PC routine |
| ThumbProperties.MiscRouting | src/arch/arm/lib/cpu/disassembler.c:2658-2692 | each selector of bits [11:8] in 1011 xxxx reaches its routine: SP adjustment, CBZ/CBNZ, extend, CPS, byte-reverse, BKPT, hints |
| ThumbProperties.MiscUndefined | src/arch/arm/lib/cpu/disassembler.c:2693-2697 | selectors 0111 and 1000, and byte-reverse with bits [7:6] = 10, are undefined |
| ThumbProperties.AddSubFields | src/arch/arm/lib/cpu/disassembler.c:1779-1823 | SUB if and only if bit 9; S = 1; Rd and Rn from bits [2:0] and [5:3]; the operand is an immediate if and only if bit 10, holding bits [8:6] |
| ThumbProperties.ShiftImmFields | src/arch/arm/lib/cpu/disassembler.c:1825-1869 | MOV with S = 1 and Rd of bits [2:0], an immediate shift of Rm by the opcode of bits [12:11], with LSR and ASR by 0 recorded as 32 |
| ThumbProperties.ShiftImmMnemonic | src/arch/arm/lib/cpu/disassembler.c:1825-1869 | LSLS, LSRS, ASRS if and only if the shift opcode is 0, 1, 2 |
| ThumbProperties.DataProcImmFields | src/arch/arm/lib/cpu/disassembler.c:1871-1912 | MOV, CMP, ADD, SUB by bits [12:11]; Rd is recorded as -1 if and only if CMP, and Rn if and only if MOV; the operand is imm8 |
| ThumbProperties.LoadStoreRegFields | src/arch/arm/lib/cpu/disassembler.c:2125-2181 | the type is STR, STRH, STRB, LDRSB, LDR, LDRH, LDRB, LDRSH by bits [11:9]; Rd, Rn and the register offset Rm from the three low fields |
| ThumbProperties.LoadStoreImmFields | src/arch/arm/lib/cpu/disassembler.c:2183-2228 | type LDR if and only if L, STR otherwise; the memory operand is Rn of bits [5:3] plus imm5 scaled by 2 for halfwords, 1 for bytes and 4 for words |
| ThumbProperties.LoadStoreImmMnemonic | src/arch/arm/lib/cpu/disassembler.c:2195-2219 | the mnemonic is LDR or STR by bit 11, with suffix H exactly for the halfword group and B exactly for the byte forms |
| ThumbProperties.LoadStoreStackFields | src/arch/arm/lib/cpu/disassembler.c:2230-2260 | LDR if and only if L; base SP (13); the offset is imm8 * 4 |
| ThumbProperties.AddSpPcFields | src/arch/arm/lib/cpu/disassembler.c:2262-2294 | ADD with S = 0; the base is SP if and only if bit 11, PC otherwise; the offset is imm8 * 4 |
| ThumbProperties.AdjustStackFields | src/arch/arm/lib/cpu/disassembler.c:2296-2325 | SUB if and only if bit 7, ADD otherwise, on SP with imm7 * 4 |
| ThumbProperties.ThumbAdjustStack | src/arch/arm/lib/cpu/disassembler.c:2661-2662 | through the entry point, 1011 0000 adjusts SP that way |
| ThumbProperties.BreakpointFields | src/arch/arm/lib/cpu/disassembler.c:2327-2339 | BKPT with the 8-bit immediate and the cleared type |
| ThumbProperties.CbFields | src/arch/arm/lib/cpu/disassembler.c:2461-2477 | CBNZ if and only if bit 11, CBZ otherwise; the register is bits [2:0] and the second operand is a target |
| ThumbProperties.CbTarget | src/arch/arm/lib/cpu/disassembler.c:2463-2466 | the CBZ/CBNZ target is address + 4 + (the 6-bit offset << 1) |
| ThumbProperties.CbOffsetRange | src/arch/arm/lib/cpu/disassembler.c:2463-2465 | the offset is imm5 plus 32 when bit 9 is set, at most 63, and zero if and only if those bits are clear |
| ThumbProperties.ExtendThumbFields | src/arch/arm/lib/cpu/disassembler.c:2479-2491 | SXTH, SXTB, UXTH, UXTB by bits [7:6], with Rd and Rm |
| ThumbProperties.CpsFields | src/arch/arm/lib/cpu/disassembler.c:2493-2512 | SETEND if and only if the pattern 0110 0101 matches; otherwise CPSID if and only if bit 4, CPSIE otherwise |
| ThumbProperties.CpsFlags | src/arch/arm/lib/cpu/disassembler.c:2503-2511 | the CPS flag list names A, I, F if and only if bits 2, 1, 0 are set |
| ThumbProperties.ByterevFields | src/arch/arm/lib/cpu/disassembler.c:2514-2537 | REV, REV16, REVSH by bits [7:6] (10 is undefined at the dispatch) |
| ThumbProperties.HintFields | src/arch/arm/lib/cpu/disassembler.c:2539-2570 | hints 0 to 4 are NOP, YIELD, WFE, WFI, SEV; every higher hint is HINT (UNRECOGNIZED) |
| ClkMux.FindByName | src/driver/clk/clk-mux.c:33-36 | the index found is the first entry with the name; none means no entry has it |
| ClkMux.FindByValue | src/driver/clk/clk-mux.c:52-55 | the index found is the first entry with the value; none means no entry has it |
| ClkMux.Mux.constructor | src/driver/clk/clk-mux.c:27-31 | a mux over a register, a field and a parent table |
| ClkMux.Mux.SetParent | src/driver/clk/clk-mux.c:27-44 | the new register is RegisterAfterSet: (old & ~mask) OR (val << shift) for the first entry with the name, and the old register when no entry has it |
| ClkMux.Mux.GetParent | src/driver/clk/clk-mux.c:46-58 | the result is ParentOf: the first entry whose value equals the extracted field, or none (NULL) |
| ClkMux.Mux.SetEnable | src/driver/clk/clk-mux.c:60-62 | the register is unchanged (the method's frame is empty) |
| ClkMux.Mux.GetEnable | src/driver/clk/clk-mux.c:64-67 | always enabled |
| ClkMux.Mux.SetRate | src/driver/clk/clk-mux.c:69-71 | the register is unchanged (the method's frame is empty) |
| ClkMux.Mux.GetRate | src/driver/clk/clk-mux.c:73-76 | the rate is the parent's rate |
| ClkMux.ExtractFieldBound | src/driver/clk/clk-mux.c:50 | the extracted selector is below 2^width |
| ClkMux.InsertKeepsOtherBits | src/driver/clk/clk-mux.c:37-40 | for a value below 2^width, the write leaves every bit outside the field as it was |
| ClkMux.ExtractInsert | src/driver/clk/clk-mux.c:37-50 | for a value below 2^width, with the field inside the register, reading the field after the write gives the value |
| ClkMux.SetThenGet | src/driver/clk/clk-mux.c:27-58 | set_parent(p) then get_parent returns p, when p's value fits the field and no earlier entry has the same value |
| ClkMux.SetUnknownKeepsParent | src/driver/clk/clk-mux.c:33-44 | with a name that no entry has, set_parent leaves the register, and so the parent, unchanged |
| ClkMux.SetParentIdempotent | src/driver/clk/clk-mux.c:33-41 | setting the same parent twice gives the same register as setting it once |

## Left out

- Text formatting. The `snprintf` output is not modelled: the address and opcode prefix, number formats and spacing, and the 128-character truncation. The text is a mnemonic plus structured operands.
- The `DEBUG_E` diagnostic before the unreachable `return -1` is left out.
- The record's union of information blocks is modelled as a tagged `Info`. Writes that would alias across union members are not modelled. The Thumb BX/BLX register form is recorded as a branch block with target 0.
- A field of -1 (a branch's register operand) is an `int`. An all-ones 32-bit field is `AllOnes`.
- DisasmCommon.Ror: the rotation is stated for even amounts only. Every caller passes twice a 4-bit field. The formula is the source's for all amounts.
- ArmDecoder.EvaluateMrsMsr: no lemma states the MRS/MSR fields beyond MsrImmediateUnrotated; the decoding follows the source branch by branch.
- ArmDecoder.EvaluateMiscInstr: the blocks before the DSP multiply block (the MRS/MSR hand-off, BX, BXJ, CLZ, BLX(2), the DSP add/subtracts and BKPT) have no field lemma; MiscBlocksExclusive states that at most one of them matches.
- `register_clk_mux` and `unregister_clk_mux` (src/driver/clk/clk-mux.c:78-128) are not part of this model. They allocate memory, search a global clock registry and register devices, none of which is visible here.
- `read32`/`write32` on the mapped address are the `reg` field of `Mux`.
- ClkMux.Mux.SetParent: requires `width < 32` and `shift < 32`, since shifting by 32 or more is undefined in C. The value written is not masked to the field, as in the source. A value of 2^width or more spills into neighbouring bits; InsertKeepsOtherBits and ExtractInsert therefore require the value to fit.
- ClkMux.SetThenGet: also requires `width + shift <= 32` (the field lies in the register) and that no earlier entry shares the selector value. Otherwise get_parent reports the earlier entry, as the source does.
- Every other source file is not part of this model: the device drivers, the machine support and the timer code.

## Findings

| source | as written | input that shows it | evidently intended | confidence | as-written member | corrected member |
|---|---|---|---|---|---|---|
| src/arch/arm/lib/cpu/disassembler.c:1316-1357 | The SMLAW/SMULW and SMUL tests compare `opcode & 0x00600000` with 0x00100000 and 0x00300000. Those values have bit 20 set, which the mask excludes, so the tests can never hold. | 0xE1200080 (SMLAWB r0, r0, r0, r0) matches no block and keeps the cleared type and text | compare with 0x00200000 (SMLAW/SMULW) and 0x00600000 (SMUL) | high; not executed | ArmDecoder.EvaluateDspMultiplyAsWritten, used by ArmDecoder.EvaluateMiscInstr and so by the entry point (ArmProperties.DspMultiplyAsWrittenSkips, ArmProperties.DspMultiplyEntryAsWritten, ArmProperties.DspMultiplyEntryExample) | ArmDecoder.EvaluateDspMultiply, used by ArmDecoder.EvaluateMiscInstrCorrected (ArmProperties.DspMultiplyDecodesAll, ArmProperties.MiscInstrCorrectedDsp) |
| src/arch/arm/lib/cpu/disassembler.c:493-506 | `evaluate_extend` picks the width from `(opcode >> 24) & 0x3`. Its only caller, the media dispatch, passes only words with bits [25:24] = 10, so the width is always B and the undefined case is unreachable. | 0xE6BF0070 (SXTH r0, r0) is shown as SXTB r0, r0 | read the width from bits [21:20], whose values 00, 01, 10, 11 match the cases B16, undefined, B, H | high; not executed | ArmDecoder.EvaluateExtend, used by the media dispatch and so by the entry point (ArmProperties.ExtendGateFixesWidth, ArmProperties.ExtendEntryAsWritten, ArmProperties.ExtendEntryExample) | ArmDecoder.EvaluateExtendCorrected (ArmProperties.ExtendCorrectedWidth, ArmProperties.ExtendCorrectedExample) |
| src/arch/arm/lib/cpu/disassembler.c:1929-1938 | `evaluate_data_proc_thumb` fills the operand record with the 3-bit Rd and Rm before the high-register forms OR in H1 and H2, so high-register ADD, CMP and MOV record registers other than the ones shown. | 0x46C8 is shown as MOV r8, r9 and records Rd = Rn = 0, Rm = 1 | record the widened Rd and Rm, the registers the text shows | medium; not executed | ThumbDecoder.EvaluateDataProcThumb, used by the entry point (ThumbProperties.DataProcHighRecord, ThumbProperties.DataProcHighExample) | ThumbDecoder.EvaluateDataProcThumbCorrected (ThumbProperties.DataProcHighCorrected, ThumbProperties.DataProcHighExample) |
