/**
 * The clock multiplexer (clk_mux_t): a `width`-bit selector field at bit
 * `shift` of a 32-bit register, and a table naming the parent clock each
 * selector value picks.  The register is a field of the object; reading
 * and writing it stand for read32/write32 on the mapped address.
 */
module ClkMux {

  /** One entry of the parent table (clk_mux_table_t): a parent clock's
      name and the selector value that picks it.  The table is the entries
      before the terminating NULL name; a NULL table is the empty one. */
  datatype Parent = Parent(name: string, val: bv32)

  datatype Option<T> = None | Some(value: T)

  /** The low `width` bits: (1 << width) - 1. */
  function LowMask(width: bv32): bv32
    requires width < 32
  {
    (1 << width) - 1
  }

  /** The field's bits in place: ((1 << width) - 1) << shift. */
  function FieldMask(width: bv32, shift: bv32): bv32
    requires width < 32 && shift < 32
  {
    LowMask(width) << shift
  }

  /** Bitwise OR, named so that the proofs can rewrite under it. */
  function Or(a: bv32, b: bv32): bv32
  {
    a | b
  }

  /** A selector value moved to the field's position: val << shift. */
  function Shifted(v: bv32, shift: bv32): bv32
    requires shift < 32
  {
    v << shift
  }

  /** The register with the field cleared: val &= ~mask. */
  function Cleared(reg: bv32, width: bv32, shift: bv32): bv32
    requires width < 32 && shift < 32
  {
    reg & !FieldMask(width, shift)
  }

  /** The read-modify-write of set_parent: clear the field, then OR in the
      selector value shifted into place (not masked to the field). */
  function InsertField(reg: bv32, width: bv32, shift: bv32, v: bv32): bv32
    requires width < 32 && shift < 32
  {
    Or(Cleared(reg, width, shift), Shifted(v, shift))
  }

  /** The selector get_parent reads: the register shifted down, masked to
      `width` bits. */
  function ExtractField(reg: bv32, width: bv32, shift: bv32): bv32
    requires width < 32 && shift < 32
  {
    (reg >> shift) & LowMask(width)
  }

  /** The index of the first entry named `name`, if any. */
  function FindByName(parents: seq<Parent>, name: string): (r: Option<nat>)
    ensures r.Some? ==> r.value < |parents| && parents[r.value].name == name
                        && forall j :: 0 <= j < r.value ==> parents[j].name != name
    ensures r.None? ==> forall j :: 0 <= j < |parents| ==> parents[j].name != name
  {
    if |parents| == 0 then None
    else if parents[0].name == name then Some(0)
    else match FindByName(parents[1..], name)
      case None => None
      case Some(i) => Some(i + 1)
  }

  /** An entry with the name and none before it is the first match. */
  lemma FirstNameAt(parents: seq<Parent>, name: string, i: nat)
    requires i < |parents| && parents[i].name == name
    requires forall j :: 0 <= j < i ==> parents[j].name != name
    ensures FindByName(parents, name) == Some(i)
  {
  }

  /** The index of the first entry whose selector value is `v`, if any. */
  function FindByValue(parents: seq<Parent>, v: bv32): (r: Option<nat>)
    ensures r.Some? ==> r.value < |parents| && parents[r.value].val == v
                        && forall j :: 0 <= j < r.value ==> parents[j].val != v
    ensures r.None? ==> forall j :: 0 <= j < |parents| ==> parents[j].val != v
  {
    if |parents| == 0 then None
    else if parents[0].val == v then Some(0)
    else match FindByValue(parents[1..], v)
      case None => None
      case Some(i) => Some(i + 1)
  }

  /** The name get_parent reports for a register value: the first entry
      whose value equals the field, or none (NULL). */
  function ParentOf(parents: seq<Parent>, reg: bv32, width: bv32, shift: bv32): Option<string>
    requires width < 32 && shift < 32
  {
    match FindByValue(parents, ExtractField(reg, width, shift))
    case None => None
    case Some(i) => Some(parents[i].name)
  }

  /** The register after set_parent: the first entry with the name selects
      the value written; with no such entry the register is untouched. */
  function RegisterAfterSet(parents: seq<Parent>, reg: bv32, width: bv32, shift: bv32, pname: string): bv32
    requires width < 32 && shift < 32
  {
    match FindByName(parents, pname)
    case None => reg
    case Some(i) => InsertField(reg, width, shift, parents[i].val)
  }

  class Mux {
    /** The 32-bit register at the mux's mapped address. */
    var reg: bv32
    const width: bv32
    const shift: bv32
    const parents: seq<Parent>

    /** The field must lie in a 32-bit register: shifting 1 by 32 or more
        is undefined in the source's language. */
    predicate Valid()
    {
      width < 32 && shift < 32
    }

    constructor(reg0: bv32, width: bv32, shift: bv32, parents: seq<Parent>)
      requires width < 32 && shift < 32
      ensures Valid()
      ensures reg == reg0 && this.width == width && this.shift == shift && this.parents == parents
    {
      reg := reg0;
      this.width := width;
      this.shift := shift;
      this.parents := parents;
    }

    /** clk_mux_set_parent: walk the table to the first entry named
        `pname` and write its value into the field; without a match the
        register is neither read nor written. */
    method SetParent(pname: string)
      requires Valid()
      modifies this
      ensures reg == RegisterAfterSet(parents, old(reg), width, shift, pname)
    {
      var i := 0;
      while i < |parents|
        invariant 0 <= i <= |parents|
        invariant forall j :: 0 <= j < i ==> parents[j].name != pname
        invariant reg == old(reg)
      {
        if parents[i].name == pname {
          FirstNameAt(parents, pname, i);
          var val := reg;
          val := Cleared(val, width, shift);
          val := Or(val, Shifted(parents[i].val, shift));
          reg := val;
          return;
        }
        i := i + 1;
      }
    }

    /** clk_mux_get_parent: extract the field and walk the table to the
        first entry with that value; none is the NULL result. */
    method GetParent() returns (name: Option<string>)
      requires Valid()
      ensures name == ParentOf(parents, reg, width, shift)
    {
      var val := ExtractField(reg, width, shift);
      var i := 0;
      while i < |parents|
        invariant 0 <= i <= |parents|
        invariant forall j :: 0 <= j < i ==> parents[j].val != val
      {
        if parents[i].val == val {
          return Some(parents[i].name);
        }
        i := i + 1;
      }
      return None;
    }

    /** clk_mux_set_enable: a mux has no gate; the empty frame says that
        nothing changes. */
    method SetEnable(enable: bool)
      ensures reg == old(reg)
    {
    }

    /** clk_mux_get_enable: always enabled. */
    method GetEnable() returns (enabled: bool)
      ensures enabled
    {
      enabled := true;
    }

    /** clk_mux_set_rate: a mux does not divide; the empty frame says that
        nothing changes. */
    method SetRate(prate: bv64, rate: bv64)
      ensures reg == old(reg)
    {
    }

    /** clk_mux_get_rate: the output runs at the parent's rate. */
    method GetRate(prate: bv64) returns (rate: bv64)
      ensures rate == prate
    {
      rate := prate;
    }
  }

  // ---------------------------------------------------------------------
  // The field arithmetic.  Each bit-level fact is proved on its own, and
  // the facts are combined through the predicates and the named
  // functions above, so that no proof has to redo another's bit-level
  // reasoning.
  // ---------------------------------------------------------------------

  /** The value read back never exceeds the field. */
  lemma ExtractFieldBound(reg: bv32, width: bv32, shift: bv32)
    requires width < 32 && shift < 32
    ensures ExtractField(reg, width, shift) < 1 << width
  {
  }

  /** The bits of `x` outside the field. */
  function Outside(x: bv32, width: bv32, shift: bv32): bv32
    requires width < 32 && shift < 32
  {
    x & !FieldMask(width, shift)
  }

  /** The shifted value has no bit outside the field. */
  predicate ShiftedFits(v: bv32, width: bv32, shift: bv32)
    requires width < 32 && shift < 32
  {
    Outside(Shifted(v, shift), width, shift) == 0
  }

  lemma ValueFitsShifted(v: bv32, width: bv32, shift: bv32)
    requires width < 32 && shift < 32 && v < 1 << width
    ensures ShiftedFits(v, width, shift)
  {
  }

  lemma AndNotOr(a: bv32, b: bv32, m: bv32)
    ensures (a | b) & !m == (a & !m) | (b & !m)
  {
  }

  lemma OutsideOfBitOr(a: bv32, b: bv32, width: bv32, shift: bv32)
    requires width < 32 && shift < 32
    ensures Outside(a | b, width, shift) == Outside(a, width, shift) | Outside(b, width, shift)
  {
    AndNotOr(a, b, FieldMask(width, shift));
  }

  /** The bits outside the field distribute over OR. */
  lemma OutsideOfOr(a: bv32, b: bv32, width: bv32, shift: bv32)
    requires width < 32 && shift < 32
    ensures Outside(Or(a, b), width, shift) == Or(Outside(a, width, shift), Outside(b, width, shift))
  {
    OutsideOfBitOr(a, b, width, shift);
  }

  lemma OutsideOfCleared(reg: bv32, width: bv32, shift: bv32)
    requires width < 32 && shift < 32
    ensures Outside(Cleared(reg, width, shift), width, shift) == Outside(reg, width, shift)
  {
  }

  lemma OrZeroRight(v: bv32)
    ensures Or(v, 0) == v
  {
  }

  lemma InsertKeepsOtherBitsOf(reg: bv32, width: bv32, shift: bv32, v: bv32)
    requires width < 32 && shift < 32 && ShiftedFits(v, width, shift)
    ensures Outside(InsertField(reg, width, shift, v), width, shift) == Outside(reg, width, shift)
  {
    OutsideOfOr(Cleared(reg, width, shift), Shifted(v, shift), width, shift);
    OutsideOfCleared(reg, width, shift);
    OrZeroRight(Outside(reg, width, shift));
  }

  /** A selector value that fits the field leaves every bit outside the
      field as it was. */
  lemma InsertKeepsOtherBits(reg: bv32, width: bv32, shift: bv32, v: bv32)
    requires width < 32 && shift < 32 && v < 1 << width
    ensures Outside(InsertField(reg, width, shift, v), width, shift) == Outside(reg, width, shift)
  {
    ValueFitsShifted(v, width, shift);
    InsertKeepsOtherBitsOf(reg, width, shift, v);
  }

  /** The cleared field reads as 0. */
  predicate ClearedReadsZero(reg: bv32, width: bv32, shift: bv32)
    requires width < 32 && shift < 32
  {
    ExtractField(Cleared(reg, width, shift), width, shift) == 0
  }

  /** The value shifted into the field reads back as itself. */
  predicate ShiftedReadsBack(v: bv32, width: bv32, shift: bv32)
    requires width < 32 && shift < 32
  {
    ExtractField(Shifted(v, shift), width, shift) == v
  }

  lemma ClearedFieldReadsZero(reg: bv32, width: bv32, shift: bv32)
    requires width < 32 && shift < 32 && width + shift <= 32
    ensures ClearedReadsZero(reg, width, shift)
  {
  }

  lemma ShiftedValueReadsBack(v: bv32, width: bv32, shift: bv32)
    requires width < 32 && shift < 32 && width + shift <= 32 && v < 1 << width
    ensures ShiftedReadsBack(v, width, shift)
  {
  }

  lemma ShiftRightOrMask(a: bv32, b: bv32, m: bv32, s: bv32)
    requires s < 32
    ensures ((a | b) >> s) & m == ((a >> s) & m) | ((b >> s) & m)
  {
  }

  lemma ExtractOfBitOr(a: bv32, b: bv32, width: bv32, shift: bv32)
    requires width < 32 && shift < 32
    ensures ExtractField(a | b, width, shift) == ExtractField(a, width, shift) | ExtractField(b, width, shift)
  {
    ShiftRightOrMask(a, b, LowMask(width), shift);
  }

  /** Reading a field distributes over OR. */
  lemma ExtractOfOr(a: bv32, b: bv32, width: bv32, shift: bv32)
    requires width < 32 && shift < 32
    ensures ExtractField(Or(a, b), width, shift) == Or(ExtractField(a, width, shift), ExtractField(b, width, shift))
  {
    ExtractOfBitOr(a, b, width, shift);
  }

  lemma OrZeroLeft(v: bv32)
    ensures Or(0, v) == v
  {
  }

  lemma ExtractInsertOf(reg: bv32, width: bv32, shift: bv32, v: bv32)
    requires width < 32 && shift < 32
    requires ClearedReadsZero(reg, width, shift) && ShiftedReadsBack(v, width, shift)
    ensures ExtractField(InsertField(reg, width, shift, v), width, shift) == v
  {
    ExtractOfOr(Cleared(reg, width, shift), Shifted(v, shift), width, shift);
    OrZeroLeft(v);
  }

  /** Reading the field back after writing a value that fits gives that
      value, when the field lies wholly inside the register. */
  lemma ExtractInsert(reg: bv32, width: bv32, shift: bv32, v: bv32)
    requires width < 32 && shift < 32 && width + shift <= 32 && v < 1 << width
    ensures ExtractField(InsertField(reg, width, shift, v), width, shift) == v
  {
    ClearedFieldReadsZero(reg, width, shift);
    ShiftedValueReadsBack(v, width, shift);
    ExtractInsertOf(reg, width, shift, v);
  }

  /** set_parent followed by get_parent returns the parent that was set,
      when its value fits the field and no earlier entry has the same
      value. */
  lemma {:induction false} SetThenGet(parents: seq<Parent>, reg: bv32, width: bv32, shift: bv32, pname: string)
    requires width < 32 && shift < 32 && width + shift <= 32
    requires FindByName(parents, pname).Some?
    requires parents[FindByName(parents, pname).value].val < 1 << width
    requires FindByValue(parents, parents[FindByName(parents, pname).value].val) == FindByName(parents, pname)
    ensures ParentOf(parents, RegisterAfterSet(parents, reg, width, shift, pname), width, shift) == Some(pname)
  {
    var i := FindByName(parents, pname).value;
    ExtractInsert(reg, width, shift, parents[i].val);
  }

  /** set_parent with a name the table lacks changes nothing, so
      get_parent reports what it reported before. */
  lemma SetUnknownKeepsParent(parents: seq<Parent>, reg: bv32, width: bv32, shift: bv32, pname: string)
    requires width < 32 && shift < 32
    requires forall j :: 0 <= j < |parents| ==> parents[j].name != pname
    ensures RegisterAfterSet(parents, reg, width, shift, pname) == reg
  {
  }

  /** set_parent is idempotent: setting the same parent twice leaves the
      register as setting it once. */
  lemma SetParentIdempotent(parents: seq<Parent>, reg: bv32, width: bv32, shift: bv32, pname: string)
    requires width < 32 && shift < 32
    ensures var once := RegisterAfterSet(parents, reg, width, shift, pname);
      RegisterAfterSet(parents, once, width, shift, pname) == once
  {
  }
}
