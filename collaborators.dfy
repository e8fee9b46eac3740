/** The parsers this model calls but does not model, stated by their assumed contracts.

    Each collaborator that takes the cursor (`parseAnnotation`, `parseIfData`,
    `parseTypeEnum`, `parseDataTypeEnum`, `parseOffsetX`, ...) is a function from
    the token sequence and the cursor index to a `Step`: the index it leaves the
    cursor at, the value it built and its error. The one assumption made about
    all of them (`Env.Valid`) is that they never move the cursor backwards; the
    loops of the source terminate only under that assumption.
    `isKeyword` and `strconv.ParseFloat` are abstract predicates on one token. */
module Collaborators {
  import opened Tokens

  /** The A2L sub-blocks whose parsers are outside this model. */
  datatype SubKind =
    // CHARACTERISTIC / MEASUREMENT sub-blocks
    | Annotation | ArraySize | AxisDescr | BitMask | BitOperation | ByteOrder
    | CalibrationAccess | ComparisonQuantity | DependentCharacteristic | Discrete
    | EcuAddress | EcuAddressExtension | Encoding | ErrorMask | ExtendedLimits | Format
    | FunctionList | GuardRails | IfData | Layout | MapList | MatrixDim | MaxRefresh
    | ModelLink | Number | ReadOnly | ReadWrite | RefMemorySegment | StepSize
    | Virtual | VirtualCharacteristic
    // MODULE sub-blocks
    | A2ml | AxisPts | Blob | CompuMethod | CompuTab | CompuVtab | CompuVtabRange
    | Frame | Function | Group | Instance | ModCommon | ModPar | Transformer
    | TypeDefAxis | TypeDefBlob | TypeDefCharacteristic | TypeDefMeasurement
    | TypeDefStructure | Unit | UserRights | VariantCoding
    // FRAME sub-block
    | FrameMeasurement

  /** What an unmodelled sub-parser returns: the name its record is filed under
      in a Module map, and the tokens standing in for its other fields. */
  datatype SubRecord = SubRecord(name: string, fields: seq<string>)

  /** Go's zero value of an unmodelled sub-record. */
  const ZeroRecord := SubRecord("", [])

  /** The data types of the A2L standard (`DataTypeEnum`); `UndefinedDatatype` is the zero value. */
  datatype DataType =
    | UndefinedDatatype | UByte | SByte | UWord | SWord | ULong | SLong
    | AUInt64 | AInt64 | Float16Ieee | Float32Ieee | Float64Ieee

  /** The CHARACTERISTIC types of the A2L standard (`TypeEnum`); `UndefinedType` is the zero value. */
  datatype CharType = UndefinedType | Ascii | Curve | Map | Cuboid | Cube4 | Cube5 | ValBlk | Value

  type uint16 = x: int | 0 <= x < 0x1_0000

  /** The RECORD_LAYOUT sub-fields, one per keyword `parseRecordLayout` dispatches on. */
  datatype SubField =
    | AlignmentByte | AlignmentFloat16Ieee | AlignmentFloat32Ieee | AlignmentFloat64Ieee
    | AlignmentInt64 | AlignmentLong | AlignmentWord
    | AxisPtsX | AxisPtsY | AxisPtsZ | AxisPts4 | AxisPts5 | AxisRescaleX
    | DistOpX | DistOpY | DistOpZ | DistOp4 | DistOp5
    | FixNoAxisPtsX | FixNoAxisPtsY | FixNoAxisPtsZ | FixNoAxisPts4 | FixNoAxisPts5
    | FncValues | Identification
    | NoAxisPtsX | NoAxisPtsY | NoAxisPtsZ | NoAxisPts4 | NoAxisPts5 | NoRescaleX
    | OffsetX | OffsetY | OffsetZ | Offset4 | Offset5 | Reserved
    | RipAddrW | RipAddrX | RipAddrY | RipAddrZ | RipAddr4 | RipAddr5
    | SrcAddrX | SrcAddrY | SrcAddrZ | SrcAddr4 | SrcAddr5
    | ShiftOpX | ShiftOpY | ShiftOpZ | ShiftOp4 | ShiftOp5
    | StaticRecordLayout | StaticAddressOffsets

  /** The common part of every RECORD_LAYOUT sub-field: a relative position and a datatype,
      each with its presence flag. */
  datatype LayoutField = LayoutField(position: uint16, positionSet: bool, dataType: DataType, dataTypeSet: bool)

  const ZeroField := LayoutField(0, false, UndefinedDatatype, false)

  /** What a collaborator that takes the cursor returns. */
  datatype Step<+T> = Step(next: nat, value: T, err: Option<Error>)

  /** The collaborators outside this model; `floatErr(t)` is the kind of the error
      `strconv.ParseFloat(t, 64)` returns, `None` when `t` parses. */
  datatype Env = Env(
    isKeyword: string -> bool,
    sub: (SubKind, seq<string>, nat) -> Step<SubRecord>,
    layoutField: (SubField, seq<string>, nat) -> Step<LayoutField>,
    typeEnum: (seq<string>, nat) -> Step<CharType>,
    dataTypeEnum: (seq<string>, nat) -> Step<DataType>,
    floatErr: string -> Option<NumErrKind>)
  {
    /** The assumed contract of every cursor collaborator: it never moves the cursor back. */
    ghost predicate Valid() {
      && (forall k, toks, i :: sub(k, toks, i).next >= i)
      && (forall f, toks, i :: layoutField(f, toks, i).next >= i)
      && (forall toks, i :: typeEnum(toks, i).next >= i)
      && (forall toks, i :: dataTypeEnum(toks, i).next >= i)
    }
  }

  /** The list held for kind `k` of a record's repeatable sub-blocks (empty when none was parsed). */
  function ListOf(lists: map<SubKind, seq<SubRecord>>, k: SubKind): seq<SubRecord> {
    if k in lists then lists[k] else []
  }

  /** The value held for singleton kind `k` (Go's zero value when none was parsed). */
  function SingleOf(singles: map<SubKind, SubRecord>, k: SubKind): SubRecord {
    if k in singles then singles[k] else ZeroRecord
  }

  /** `append(list, v)` on the list of kind `k`: that list gains `v` at its end, no other list changes. */
  function Appended(lists: map<SubKind, seq<SubRecord>>, k: SubKind, v: SubRecord): (r: map<SubKind, seq<SubRecord>>)
    ensures ListOf(r, k) == ListOf(lists, k) + [v]
    ensures forall k' :: k' != k ==> ListOf(r, k') == ListOf(lists, k')
  {
    lists[k := ListOf(lists, k) + [v]]
  }

  /** A positional attribute with its presence flag (the source's `Name` and `NameSet`). */
  datatype Slot<T> = Slot(value: T, isSet: bool)

  /** A slot that was set is still set, with the same value. */
  predicate KeptSlot<T(==)>(a: Slot<T>, b: Slot<T>) {
    a.isSet ==> b == a
  }

  /** The repeatable and singleton sub-blocks of one record. */
  datatype SubBlocks = SubBlocks(lists: map<SubKind, seq<SubRecord>>, singles: map<SubKind, SubRecord>)
  {
    /** `append` to the list of kind `k`: that list gains `v` at its end, nothing else changes. */
    function Append(k: SubKind, v: SubRecord): (r: SubBlocks)
      ensures ListOf(r.lists, k) == ListOf(lists, k) + [v]
      ensures forall k' :: k' != k ==> ListOf(r.lists, k') == ListOf(lists, k')
      ensures r.singles == singles
    {
      SubBlocks(Appended(lists, k, v), singles)
    }

    /** Assignment to the singleton of kind `k`: it becomes `v`, nothing else changes. */
    function Overwrite(k: SubKind, v: SubRecord): (r: SubBlocks)
      ensures SingleOf(r.singles, k) == v
      ensures forall k' :: k' != k ==> SingleOf(r.singles, k') == SingleOf(singles, k')
      ensures r.lists == lists
    {
      SubBlocks(lists, singles[k := v])
    }
  }

  const NoSubBlocks := SubBlocks(map[], map[])

  /** `b` is `a` after further appends: every list of `a` is a prefix of the same list of `b`. */
  ghost predicate Extends(a: SubBlocks, b: SubBlocks) {
    forall k :: ListOf(a.lists, k) <= ListOf(b.lists, k)
  }

  lemma ExtendsTrans(a: SubBlocks, b: SubBlocks, c: SubBlocks)
    requires Extends(a, b) && Extends(b, c)
    ensures Extends(a, c)
  {
    forall k ensures ListOf(a.lists, k) <= ListOf(c.lists, k) {
      assert ListOf(a.lists, k) <= ListOf(b.lists, k);
      assert ListOf(b.lists, k) <= ListOf(c.lists, k);
    }
  }

  /** One turn of a block parser's loop: carry on from `next`, or leave the loop. */
  datatype Turn<+T> = Continue(next: nat, value: T) | Stop(next: nat, value: T, err: Option<Error>)

  /** The turn of a branch that assigns `v` and then leaves the loop exactly when `err` is set. */
  function Outcome<T>(next: nat, v: T, err: Option<Error>): (r: Turn<T>)
    ensures r.next == next && r.value == v
    ensures r.Stop? <==> err.Some?
    ensures r.Stop? ==> r.err == err
  {
    if err.Some? then Stop(next, v, err) else Continue(next, v)
  }

  /** How a parser's `switch` treats a sub-block keyword. */
  datatype Entry =
    | AppendTo(kind: SubKind)     // repeatable: appended on success
    | Overwrite(kind: SubKind)    // singleton: assigned from the sub-parser, even when it fails
    | ToDisplayIdentifier
    | ToPhysUnit
    | ToSymbolLink

  // The cursor-taking collaborators, as calls that move the shared cursor.

  method ParseSub(env: Env, cur: Cursor, k: SubKind) returns (v: SubRecord, err: Option<Error>)
    requires env.Valid()
    modifies cur
    ensures var s := env.sub(k, cur.toks, old(cur.index)); cur.index == s.next && v == s.value && err == s.err
    ensures cur.index >= old(cur.index)
  {
    var s := env.sub(k, cur.toks, cur.index);
    cur.index := s.next;
    v, err := s.value, s.err;
  }

  method ParseLayoutField(env: Env, cur: Cursor, f: SubField) returns (v: LayoutField, err: Option<Error>)
    requires env.Valid()
    modifies cur
    ensures var s := env.layoutField(f, cur.toks, old(cur.index)); cur.index == s.next && v == s.value && err == s.err
    ensures cur.index >= old(cur.index)
  {
    var s := env.layoutField(f, cur.toks, cur.index);
    cur.index := s.next;
    v, err := s.value, s.err;
  }

  method ParseTypeEnum(env: Env, cur: Cursor) returns (v: CharType, err: Option<Error>)
    requires env.Valid()
    modifies cur
    ensures var s := env.typeEnum(cur.toks, old(cur.index)); cur.index == s.next && v == s.value && err == s.err
    ensures cur.index >= old(cur.index)
  {
    var s := env.typeEnum(cur.toks, cur.index);
    cur.index := s.next;
    v, err := s.value, s.err;
  }

  method ParseDataTypeEnum(env: Env, cur: Cursor) returns (v: DataType, err: Option<Error>)
    requires env.Valid()
    modifies cur
    ensures var s := env.dataTypeEnum(cur.toks, old(cur.index)); cur.index == s.next && v == s.value && err == s.err
    ensures cur.index >= old(cur.index)
  {
    var s := env.dataTypeEnum(cur.toks, cur.index);
    cur.index := s.next;
    v, err := s.value, s.err;
  }
}
