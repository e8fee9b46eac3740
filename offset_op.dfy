/** The offset-operator getters of `CalibrationData` (`getOffsetX`, `getOffsetY`,
    `getOffsetZ`, `getOffset4`, `getOffset5`).

    Each getter reads the datatype of its own OFFSET_* sub-field of a record layout,
    fetches the bytes of that datatype at the caller's byte cursor `*curPos`,
    converts them to a value and, only on success, advances the cursor by the
    datatype's length, with the wrap-around of Go's `uint32`. The memory image, the
    byte fetch (`getValue`), the conversion (`convertByteSliceToDatatype`) and the
    length table (`GetDatatypeLength`) are outside this model: they are the parameters
    in `Memory`. The logging calls are left out. */
module OffsetOps {
  import opened Tokens
  import opened Collaborators
  import opened RecordLayouts

  const Two32: int := 0x1_0000_0000

  type uint32 = x: int | 0 <= x < 0x1_0000_0000

  /** Go's conversion `uint32(n)` and the wrap-around of `+=` on a `uint32`. */
  function Wrap32(n: nat): (r: uint32)
    ensures n < Two32 ==> r == n
  {
    n % Two32
  }

  /** What `getValue` returns: the bytes read, or an error. */
  datatype Fetched = Fetched(bytes: seq<bv8>, err: Option<Error>)

  /** What `convertByteSliceToDatatype` returns: the value, or an error. */
  datatype Converted = Converted(value: int, err: Option<Error>)

  /** The collaborators of `CalibrationData` the getters call. */
  datatype Memory = Memory(
    fetch: (uint32, DataType, RecordLayout) -> Fetched,
    convert: (seq<bv8>, DataType) -> Converted,
    length: DataType -> nat)

  /** The five offset operators, one per getter. */
  datatype OffsetOp = OpX | OpY | OpZ | Op4 | Op5
  {
    /** The record-layout sub-field the getter reads. */
    function Field(): SubField {
      match this
      case OpX => OffsetX
      case OpY => OffsetY
      case OpZ => OffsetZ
      case Op4 => Offset4
      case Op5 => Offset5
    }

    /** The name the getter's "datatype not set" error starts with. */
    function Name(): string {
      match this
      case OpX => "offsetX"
      case OpY => "offsetY"
      case OpZ => "offsetZ"
      case Op4 => "offset4"
      case Op5 => "offset5"
    }
  }

  /** The outcome of one getter call: its two results and the cursor afterwards. */
  datatype Read = Read(value: int, err: Option<Error>, pos: uint32)

  /** One getter call on the cursor value `pos`. */
  function OffsetRead(cd: Memory, rl: RecordLayout, op: OffsetOp, pos: uint32): (r: Read)
    // without a datatype: 0, "offsetX datatype not set", cursor unchanged
    ensures !FieldOf(rl, op.Field()).dataTypeSet ==>
      r == Read(0, Some(DatatypeNotSet(op.Name())), pos)
      && r.err.value.Message() == op.Name() + " datatype not set"
    // every failure returns 0 and leaves the cursor where it was
    ensures r.err.Some? ==> r.value == 0 && r.pos == pos
    // a failed fetch passes on the fetch's error; a failed conversion of fetched bytes
    // passes on the conversion's error
    ensures var dt := FieldOf(rl, op.Field()).dataType; var f := cd.fetch(pos, dt, rl);
      FieldOf(rl, op.Field()).dataTypeSet && f.err.Some? ==> r.err == f.err
    ensures var dt := FieldOf(rl, op.Field()).dataType; var f := cd.fetch(pos, dt, rl);
      FieldOf(rl, op.Field()).dataTypeSet && f.err.None? && cd.convert(f.bytes, dt).err.Some? ==>
        r.err == cd.convert(f.bytes, dt).err
    // success: the value converted from the bytes fetched at the old cursor, and the
    // cursor advanced by exactly the datatype's length (modulo 2^32)
    ensures r.err.None? <==>
      var dt := FieldOf(rl, op.Field()).dataType; var f := cd.fetch(pos, dt, rl);
      FieldOf(rl, op.Field()).dataTypeSet && f.err.None? && cd.convert(f.bytes, dt).err.None?
    ensures r.err.None? ==>
      var dt := FieldOf(rl, op.Field()).dataType;
      && r.value == cd.convert(cd.fetch(pos, dt, rl).bytes, dt).value
      && r.pos == Wrap32(pos + Wrap32(cd.length(dt)))
  {
    var field := FieldOf(rl, op.Field());
    if !field.dataTypeSet then Read(0, Some(DatatypeNotSet(op.Name())), pos)
    else
      var f := cd.fetch(pos, field.dataType, rl);
      if f.err.Some? then Read(0, f.err, pos)
      else
        var c := cd.convert(f.bytes, field.dataType);
        if c.err.Some? then Read(0, c.err, pos)
        else Read(c.value, None, Wrap32(pos + Wrap32(cd.length(field.dataType))))
  }

  /** Each getter depends only on its own sub-field: changing any other sub-field of the
      layout does not change the outcome, as long as the byte fetch does not look at it. */
  lemma OffsetReadsOwnField(cd: Memory, rl: RecordLayout, op: OffsetOp, f: SubField, x: LayoutField, pos: uint32)
    requires f != op.Field()
    requires forall p, dt :: cd.fetch(p, dt, rl.(fields := rl.fields[f := x])) == cd.fetch(p, dt, rl)
    ensures OffsetRead(cd, rl.(fields := rl.fields[f := x]), op, pos) == OffsetRead(cd, rl, op, pos)
  {
    var rl' := rl.(fields := rl.fields[f := x]);
    assert FieldOf(rl', op.Field()) == FieldOf(rl, op.Field());
  }

  /** Two successful calls in sequence advance the cursor by the sum of the two lengths,
      modulo 2^32. */
  lemma TwoReadsAdvance(cd: Memory, rl: RecordLayout, a: OffsetOp, b: OffsetOp, pos: uint32)
    requires OffsetRead(cd, rl, a, pos).err.None?
    requires OffsetRead(cd, rl, b, OffsetRead(cd, rl, a, pos).pos).err.None?
    ensures var mid := OffsetRead(cd, rl, a, pos).pos;
      OffsetRead(cd, rl, b, mid).pos
        == Wrap32(pos + cd.length(FieldOf(rl, a.Field()).dataType) + cd.length(FieldOf(rl, b.Field()).dataType))
  {
    var la := cd.length(FieldOf(rl, a.Field()).dataType);
    var lb := cd.length(FieldOf(rl, b.Field()).dataType);
    var mid := OffsetRead(cd, rl, a, pos).pos;
    assert mid == (pos + la % Two32) % Two32;
    WrapAdd(pos, la);
    WrapAdd(mid, lb);
    WrapAdd(pos + la, lb);
    assert OffsetRead(cd, rl, b, mid).pos == (mid + lb % Two32) % Two32;
    WrapShift(pos + la, lb);
  }

  /** Truncating an addend first does not change a sum modulo 2^32. */
  lemma WrapAdd(p: nat, n: nat)
    ensures (p + n % Two32) % Two32 == (p + n) % Two32
  {
    var q := n / Two32;
    assert n == q * Two32 + n % Two32;
    assert p + n == (p + n % Two32) + q * Two32;
  }

  /** Reducing the first addend modulo 2^32 does not change a sum modulo 2^32. */
  lemma WrapShift(p: nat, n: nat)
    ensures (p % Two32 + n) % Two32 == (p + n) % Two32
  {
    var q := p / Two32;
    assert p == q * Two32 + p % Two32;
    assert p + n == (p % Two32 + n) + q * Two32;
  }

  /** The caller's `*uint32` cursor. */
  class BytePos {
    var value: uint32

    constructor (value: uint32)
      ensures this.value == value
    {
      this.value := value;
    }
  }

  /** The body every getter shares: the values returned and the new cursor are those of
      `OffsetRead` on the old cursor; the layout is a value and is only read. */
  method GetOffset(cd: Memory, rl: RecordLayout, op: OffsetOp, curPos: BytePos) returns (v: int, err: Option<Error>)
    modifies curPos
    ensures Read(v, err, curPos.value) == OffsetRead(cd, rl, op, old(curPos.value))
  {
    var field := FieldOf(rl, op.Field());
    if !field.dataTypeSet {
      return 0, Some(DatatypeNotSet(op.Name()));
    }
    var bufBytes := cd.fetch(curPos.value, field.dataType, rl);
    if bufBytes.err.Some? {
      return 0, bufBytes.err;
    }
    var val := cd.convert(bufBytes.bytes, field.dataType);
    if val.err.Some? {
      return 0, val.err;
    }
    curPos.value := Wrap32(curPos.value + Wrap32(cd.length(field.dataType)));
    v, err := val.value, None;
  }

  method GetOffsetX(cd: Memory, rl: RecordLayout, curPos: BytePos) returns (v: int, err: Option<Error>)
    modifies curPos
    ensures Read(v, err, curPos.value) == OffsetRead(cd, rl, OpX, old(curPos.value))
  {
    v, err := GetOffset(cd, rl, OpX, curPos);
  }

  method GetOffsetY(cd: Memory, rl: RecordLayout, curPos: BytePos) returns (v: int, err: Option<Error>)
    modifies curPos
    ensures Read(v, err, curPos.value) == OffsetRead(cd, rl, OpY, old(curPos.value))
  {
    v, err := GetOffset(cd, rl, OpY, curPos);
  }

  method GetOffsetZ(cd: Memory, rl: RecordLayout, curPos: BytePos) returns (v: int, err: Option<Error>)
    modifies curPos
    ensures Read(v, err, curPos.value) == OffsetRead(cd, rl, OpZ, old(curPos.value))
  {
    v, err := GetOffset(cd, rl, OpZ, curPos);
  }

  method GetOffset4(cd: Memory, rl: RecordLayout, curPos: BytePos) returns (v: int, err: Option<Error>)
    modifies curPos
    ensures Read(v, err, curPos.value) == OffsetRead(cd, rl, Op4, old(curPos.value))
  {
    v, err := GetOffset(cd, rl, Op4, curPos);
  }

  method GetOffset5(cd: Memory, rl: RecordLayout, curPos: BytePos) returns (v: int, err: Option<Error>)
    modifies curPos
    ensures Read(v, err, curPos.value) == OffsetRead(cd, rl, Op5, old(curPos.value))
  {
    v, err := GetOffset(cd, rl, Op5, curPos);
  }
}
