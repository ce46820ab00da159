/**
 * Helpers shared by the ARM and Thumb decoders: the condition-suffix
 * table, the rotate-right helper, field extraction and the rendering of
 * a register-list bitmask.
 */
module DisasmCommon {

  /** arm_condition_strings: the suffix for each 4-bit condition field. */
  const ConditionStrings: seq<string> :=
    ["EQ", "NE", "CS", "CC", "MI", "PL", "VS", "VC",
     "HI", "LS", "GE", "LT", "GT", "LE", "", "NV"]

  /** COND(opcode): the suffix selected by bits [31:28]; at most two
      letters, and empty exactly for the always condition 1110. */
  function Cond(op: bv32): (r: string)
    ensures |r| <= 2
    ensures r == "" <==> op >> 28 == 0xe
  {
    ConditionStrings[((op & 0xf000_0000) >> 28) as bv4]
  }

  /** The condition-table entry for a 4-bit field already extracted. */
  function CondAt(field: bv32): string
  {
    ConditionStrings[(field & 0xf) as bv4]
  }

  /** ror: rotate right by `places`; rotating by 0 shifts left by 32,
      which gives 0 here, so the value comes back unchanged. Every
      caller rotates by twice a 4-bit field, so the rotation is stated
      for even amounts. */
  function Ror(value: bv32, places: bv32): (r: bv32)
    requires places < 32
    ensures places & 1 == 0 ==> r == value.RotateRight(places as nat)
  {
    (value >> places) | (value << (32 - places))
  }

  /** Unsigned fields of an opcode, as the numbers the descriptor stores. */
  function U1(x: bv32): int { (x & 0x1) as bv1 as int }
  function U2(x: bv32): int { (x & 0x3) as bv2 as int }
  function U3(x: bv32): int { (x & 0x7) as bv3 as int }
  function U4(x: bv32): int { (x & 0xf) as bv4 as int }
  function U5(x: bv32): int { (x & 0x1f) as bv5 as int }
  function U8(x: bv32): int { (x & 0xff) as bv8 as int }

  /** The value of a C `x_u8` assigned from a wider expression: the low
      eight bits. */
  function Low8(x: bv32): bv32 { x & 0xff }

  /** A 24-bit field read as a two's-complement number, in 32 bits.  This is
      the reference the decoders' OR-with-0xff000000 extension is checked
      against. */
  function SignedImm24(x: bv32): bv32 { ((x & 0x00ff_ffff) ^ 0x0080_0000) - 0x0080_0000 }

  /** An 11-bit field read as a two's-complement number, in 32 bits. */
  function SignedImm11(x: bv32): bv32 { ((x & 0x7ff) ^ 0x400) - 0x400 }

  /** An 8-bit field read as a two's-complement number, in 32 bits. */
  function SignedImm8(x: bv32): bv32 { ((x & 0xff) ^ 0x80) - 0x80 }

  /** Whether register `r` is named by the bitmask. */
  predicate InList(list: bv32, r: int)
  {
    0 <= r < 16 && ((list >> (r as bv32)) & 1) == 1
  }

  /** The registers below `n` that the bitmask names, ascending. */
  function RegsBelow(list: bv32, n: int): seq<int>
    requires 0 <= n <= 16
  {
    if n == 0 then []
    else RegsBelow(list, n - 1) + (if InList(list, n - 1) then [n - 1] else [])
  }

  /** The register list as the decoders render it: every register whose
      bit is set, in ascending order. */
  function RegisterList(list: bv32): seq<int>
  {
    RegsBelow(list, 16)
  }

  lemma {:induction false} RegsBelowMembers(list: bv32, n: int, r: int)
    requires 0 <= n <= 16
    ensures r in RegsBelow(list, n) <==> r < n && InList(list, r)
  {
    if n > 0 {
      RegsBelowMembers(list, n - 1, r);
    }
  }

  lemma {:induction false} RegsBelowAscending(list: bv32, n: int)
    requires 0 <= n <= 16
    ensures forall j, k :: 0 <= j < k < |RegsBelow(list, n)| ==> RegsBelow(list, n)[j] < RegsBelow(list, n)[k]
    ensures forall j :: 0 <= j < |RegsBelow(list, n)| ==> RegsBelow(list, n)[j] < n
  {
    if n > 0 {
      RegsBelowAscending(list, n - 1);
    }
  }

  /** A register appears in the rendered list exactly when its bit is set. */
  lemma RegisterListMembers(list: bv32, r: int)
    ensures r in RegisterList(list) <==> InList(list, r)
  {
    RegsBelowMembers(list, 16, r);
  }

  /** The rendered list is strictly ascending. */
  lemma RegisterListAscending(list: bv32)
    ensures forall j, k :: 0 <= j < k < |RegisterList(list)| ==> RegisterList(list)[j] < RegisterList(list)[k]
  {
    RegsBelowAscending(list, 16);
  }

  /** The loop of evaluate_ldm_stm and evaluate_load_store_multiple_thumb
      that walks the sixteen bits and appends each register whose bit is
      set. */
  method RenderRegisterList(list: bv32) returns (regs: seq<int>)
    ensures regs == RegisterList(list)
  {
    regs := [];
    var i := 0;
    while i <= 15
      invariant 0 <= i <= 16
      invariant regs == RegsBelow(list, i)
    {
      if InList(list, i) {
        regs := regs + [i];
      }
      i := i + 1;
    }
  }
}
