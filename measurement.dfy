/** MEASUREMENT: the loop of `parseMeasurement`.

    The loop has the shape of the CHARACTERISTIC loop: sub-block keywords go to their
    parsers (repeatable ones appended on success, singletons assigned whatever the
    outcome), the first failure ends the loop, end of input and a foreign keyword are
    errors, `/end MEASUREMENT` ends the loop, and a literal fills the first of eight
    positional slots still unset. The Resolution slot is a `uint16` read by
    `strconv.ParseUint(_, 10, 16)`. */
module Measurements {
  import opened Tokens
  import opened Collaborators
  import opened Keywords
  import opened Numbers
  import opened DisplayIdentifiers
  import opened PhysUnits
  import opened SymbolLinks

  /** The floating-point slots hold the literal text that `strconv.ParseFloat` accepted. */
  datatype Measurement = Measurement(
    name: Slot<string>,
    longIdentifier: Slot<string>,
    dataType: Slot<DataType>,
    conversion: Slot<string>,
    resolution: Slot<uint16>,
    accuracy: Slot<string>,
    lowerLimit: Slot<string>,
    upperLimit: Slot<string>,
    subs: SubBlocks,
    displayIdentifier: DisplayIdentifier,
    physUnit: PhysUnit,
    symbolLink: SymbolLink)

  const NoText := Slot("", false)

  const ZeroMeasurement := Measurement(
    NoText, NoText, Slot(UndefinedDatatype, false), NoText, Slot(0, false), NoText, NoText, NoText,
    NoSubBlocks, ZeroDisplayIdentifier, ZeroPhysUnit, ZeroSymbolLink)

  /** The sub-block keywords of MEASUREMENT and what the loop does with each. */
  const MeasurementTable: map<string, Entry> := map[
    BeginAnnotationToken := AppendTo(Annotation),
    ArraySizeToken := Overwrite(ArraySize),
    BitMaskToken := Overwrite(BitMask),
    BeginBitOperationToken := Overwrite(BitOperation),
    ByteOrderToken := Overwrite(ByteOrder),
    DiscreteToken := Overwrite(Discrete),
    DisplayIdentifierToken := ToDisplayIdentifier,
    EcuAddressToken := Overwrite(EcuAddress),
    EcuAddressExtensionToken := Overwrite(EcuAddressExtension),
    ErrorMaskToken := Overwrite(ErrorMask),
    FormatToken := Overwrite(Format),
    BeginFunctionListToken := Overwrite(FunctionList),
    BeginIfDataToken := AppendTo(IfData),
    LayoutToken := Overwrite(Layout),
    MatrixDimToken := Overwrite(MatrixDim),
    MaxRefreshToken := Overwrite(MaxRefresh),
    ModelLinkToken := Overwrite(ModelLink),
    PhysUnitToken := ToPhysUnit,
    ReadWriteToken := Overwrite(ReadWrite),
    RefMemorySegmentToken := Overwrite(RefMemorySegment),
    SymbolLinkToken := ToSymbolLink,
    BeginVirtualToken := Overwrite(Virtual)
  ]

  lemma MeasurementTableKeys()
    ensures Empty !in MeasurementTable && EndMeasurementToken !in MeasurementTable
  {
  }

  /** Presence flags set in slot order: each set flag has the one before it set. */
  predicate InSlotOrder(m: Measurement) {
    && (m.longIdentifier.isSet ==> m.name.isSet)
    && (m.dataType.isSet ==> m.longIdentifier.isSet)
    && (m.conversion.isSet ==> m.dataType.isSet)
    && (m.resolution.isSet ==> m.conversion.isSet)
    && (m.accuracy.isSet ==> m.resolution.isSet)
    && (m.lowerLimit.isSet ==> m.accuracy.isSet)
    && (m.upperLimit.isSet ==> m.lowerLimit.isSet)
  }

  /** The slot a literal goes to: the first whose flag is unset (8 when all are set). */
  function FirstUnset(m: Measurement): (n: nat)
    ensures n <= 8
  {
    if !m.name.isSet then 0
    else if !m.longIdentifier.isSet then 1
    else if !m.dataType.isSet then 2
    else if !m.conversion.isSet then 3
    else if !m.resolution.isSet then 4
    else if !m.accuracy.isSet then 5
    else if !m.lowerLimit.isSet then 6
    else if !m.upperLimit.isSet then 7
    else 8
  }

  /** The presence flag of slot `k`. */
  function Flag(m: Measurement, k: nat): bool {
    match k
    case 0 => m.name.isSet
    case 1 => m.longIdentifier.isSet
    case 2 => m.dataType.isSet
    case 3 => m.conversion.isSet
    case 4 => m.resolution.isSet
    case 5 => m.accuracy.isSet
    case 6 => m.lowerLimit.isSet
    case 7 => m.upperLimit.isSet
    case _ => false
  }

  /** The literal text stored in slot `k` (Datatype and Resolution hold parsed values). */
  function SlotText(m: Measurement, k: nat): string {
    match k
    case 0 => m.name.value
    case 1 => m.longIdentifier.value
    case 3 => m.conversion.value
    case 5 => m.accuracy.value
    case 6 => m.lowerLimit.value
    case 7 => m.upperLimit.value
    case _ => ""
  }

  /** `d` keeps every slot `m` had set, with its value. */
  predicate Kept(m: Measurement, d: Measurement) {
    && KeptSlot(m.name, d.name)
    && KeptSlot(m.longIdentifier, d.longIdentifier)
    && KeptSlot(m.dataType, d.dataType)
    && KeptSlot(m.conversion, d.conversion)
    && KeptSlot(m.resolution, d.resolution)
    && KeptSlot(m.accuracy, d.accuracy)
    && KeptSlot(m.lowerLimit, d.lowerLimit)
    && KeptSlot(m.upperLimit, d.upperLimit)
  }

  /** The positional branch of the default case, for the literal under the cursor at `at`. */
  function MeasurementLiteral(env: Env, toks: seq<string>, at: nat, m: Measurement): (r: Turn<Measurement>)
    requires env.Valid()
    ensures r.next >= at
    ensures Kept(m, r.value) && r.value.subs == m.subs
    ensures InSlotOrder(m) ==> InSlotOrder(r.value)
    ensures r.Stop? ==> r.err.Some?
  {
    var t := TokenAt(toks, at);
    if !m.name.isSet then Continue(at, m.(name := Slot(t, true)))
    else if !m.longIdentifier.isSet then Continue(at, m.(longIdentifier := Slot(t, true)))
    else if !m.dataType.isSet then
      var s := env.dataTypeEnum(toks, at);
      if s.err.Some? then Stop(s.next, m.(dataType := Slot(s.value, false)), s.err)
      else Continue(s.next, m.(dataType := Slot(s.value, true)))
    else if !m.conversion.isSet then Continue(at, m.(conversion := Slot(t, true)))
    else if !m.resolution.isSet then
      match ParseUint(t, 16)
      case IntErr(k) => Stop(at, m, Some(NumError("ParseUint", t, k)))
      case IntOk(v) =>
        MaxUintValues();
        Continue(at, m.(resolution := Slot(v, true)))
    else if !m.accuracy.isSet then
      if env.floatErr(t).Some? then Stop(at, m, Some(FloatError(t, env.floatErr(t).value)))
      else Continue(at, m.(accuracy := Slot(t, true)))
    else if !m.lowerLimit.isSet then
      if env.floatErr(t).Some? then Stop(at, m, Some(FloatError(t, env.floatErr(t).value)))
      else Continue(at, m.(lowerLimit := Slot(t, true)))
    else if !m.upperLimit.isSet then
      if env.floatErr(t).Some? then Stop(at, m, Some(FloatError(t, env.floatErr(t).value)))
      else Continue(at, m.(upperLimit := Slot(t, true)))
    else Continue(at, m)
  }

  /** A sub-block branch of the `switch`, for the keyword under the cursor at `at`. */
  function MeasurementSub(env: Env, toks: seq<string>, at: nat, m: Measurement, e: Entry): (r: Turn<Measurement>)
    requires env.Valid()
    ensures r.next >= at
    ensures r.Stop? ==> r.err.Some?
    ensures Kept(m, r.value) && Extends(m.subs, r.value.subs)
    ensures InSlotOrder(m) ==> InSlotOrder(r.value)
  {
    match e
    case AppendTo(k) =>
      var s := env.sub(k, toks, at);
      if s.err.Some? then Stop(s.next, m, s.err)
      else Continue(s.next, m.(subs := m.subs.Append(k, s.value)))
    case Overwrite(k) =>
      var s := env.sub(k, toks, at);
      Outcome(s.next, m.(subs := m.subs.Overwrite(k, s.value)), s.err)
    case ToDisplayIdentifier =>
      var s := DisplayIdentifierOf(env, toks, at);
      Outcome(s.next, m.(displayIdentifier := s.value), s.err)
    case ToPhysUnit =>
      var s := PhysUnitOf(env, toks, at);
      Outcome(s.next, m.(physUnit := s.value), s.err)
    case ToSymbolLink =>
      var s := SymbolLinkRun(env, toks, at, ZeroSymbolLink);
      Outcome(s.next, m.(symbolLink := s.value), s.err)
  }

  /** One turn of the loop: `tok.next()`, then the `switch` on the token. */
  function MeasurementTurn(env: Env, toks: seq<string>, i: nat, m: Measurement): (r: Turn<Measurement>)
    requires env.Valid()
    ensures r.next > i
    ensures r.Continue? ==> i + 1 < |toks|
    ensures Kept(m, r.value) && Extends(m.subs, r.value.subs)
    ensures InSlotOrder(m) ==> InSlotOrder(r.value)
    ensures r.Stop? && r.err == None ==> TokenAt(toks, i + 1) == EndMeasurementToken && r.next == i + 1
  {
    var t := TokenAt(toks, i + 1);
    MeasurementTableKeys();
    if t in MeasurementTable then MeasurementSub(env, toks, i + 1, m, MeasurementTable[t])
    else if t == Empty then Stop(i + 1, m, Some(UnexpectedEof))
    else if t == EndMeasurementToken then Stop(i + 1, m, None)
    else if env.isKeyword(t) then Stop(i + 1, m, Some(UnexpectedToken(t)))
    else MeasurementLiteral(env, toks, i + 1, m)
  }

  /** The whole loop from cursor index `i`: what `parseMeasurement` returns and where it
      leaves the cursor. Across the loop set slots keep their values, lists only grow at
      their ends, the slot order is kept, and success means the cursor is on
      `/end MEASUREMENT`. */
  function MeasurementRun(env: Env, toks: seq<string>, i: nat, m: Measurement): (r: Step<Measurement>)
    requires env.Valid()
    ensures r.next > i
    ensures Kept(m, r.value) && Extends(m.subs, r.value.subs)
    ensures InSlotOrder(m) ==> InSlotOrder(r.value)
    ensures r.err == None ==> TokenAt(toks, r.next) == EndMeasurementToken
    decreases |toks| - i
  {
    match MeasurementTurn(env, toks, i, m)
    case Stop(j, d, e) => Step(j, d, e)
    case Continue(j, d) =>
      var r := MeasurementRun(env, toks, j, d);
      ExtendsTrans(m.subs, d.subs, r.value.subs);
      r
  }

  /** A literal fills the first unset slot and sets exactly that flag, in the order Name,
      LongIdentifier, Datatype, Conversion, Resolution, Accuracy, LowerLimit, UpperLimit;
      the text slots store the token verbatim; once all eight are set a literal changes
      nothing. */
  lemma MeasurementLiteralFills(env: Env, toks: seq<string>, at: nat, m: Measurement)
    requires env.Valid() && InSlotOrder(m)
    ensures var r := MeasurementLiteral(env, toks, at, m); var n := FirstUnset(m);
      (forall k :: 0 <= k < 8 ==> (Flag(m, k) <==> k < n))
      && (n == 8 ==> r == Continue(at, m))
      && (n < 8 && r.Continue? ==>
            FirstUnset(r.value) == n + 1 && forall k :: 0 <= k < 8 ==> (Flag(r.value, k) <==> k <= n))
      && (n < 8 && n != 2 && n != 4 && r.Continue? ==> SlotText(r.value, n) == TokenAt(toks, at) && r.next == at)
      && (n == 2 ==> r.value.dataType.value == env.dataTypeEnum(toks, at).value && r.next == env.dataTypeEnum(toks, at).next)
  {
  }

  /** The Resolution slot: it is filled exactly when the literal is a non-empty string of
      decimal digits whose value fits in 16 bits, and then holds that value; otherwise the
      loop ends with the `ParseUint` error and the slot stays unset. */
  lemma MeasurementResolution(env: Env, toks: seq<string>, at: nat, m: Measurement)
    requires env.Valid() && FirstUnset(m) == 4
    ensures var r := MeasurementLiteral(env, toks, at, m); var t := TokenAt(toks, at);
      (r.Continue? <==> t != "" && AllDigits(t) && DecValue(t) <= 0xFFFF)
      && (r.Continue? ==> r.value.resolution == Slot(DecValue(t), true) && r.next == at)
      && (r.Stop? ==> r.value == m && r.err == Some(NumError("ParseUint", t, ParseUint(t, 16).kind)))
  {
    var t := TokenAt(toks, at);
    ParseUintOk(t, 16);
    MaxUintValues();
  }

  /** A literal in a slot that must parse: a failed datatype parse or float parse ends the
      loop with the error and leaves that slot's flag unset; the text slots never fail. */
  lemma MeasurementSlotFailure(env: Env, toks: seq<string>, at: nat, m: Measurement)
    requires env.Valid()
    ensures var r := MeasurementLiteral(env, toks, at, m); var n := FirstUnset(m);
      var t := TokenAt(toks, at);
      (n == 2 ==> (r.Stop? <==> env.dataTypeEnum(toks, at).err.Some?))
      && (n == 2 && r.Stop? ==> r.err == env.dataTypeEnum(toks, at).err && !r.value.dataType.isSet)
      && (n in {5, 6, 7} ==> (r.Stop? <==> env.floatErr(t).Some?))
      && (n in {5, 6, 7} && r.Stop? ==> r.err == Some(FloatError(t, env.floatErr(t).value)) && !Flag(r.value, n))
      && (n !in {2, 4, 5, 6, 7} ==> r.Continue?)
  {
  }

  /** The default branch: end of input is an error, `/end MEASUREMENT` ends the loop with
      no error, and any other keyword that opens no sub-block is an error. */
  lemma MeasurementDefault(env: Env, toks: seq<string>, i: nat, m: Measurement)
    requires env.Valid()
    ensures var t := TokenAt(toks, i + 1); var r := MeasurementRun(env, toks, i, m);
      (t == Empty ==> r == Step(i + 1, m, Some(UnexpectedEof)))
      && (t == EndMeasurementToken ==> r == Step(i + 1, m, None))
      && (t !in MeasurementTable && t != Empty && t != EndMeasurementToken && env.isKeyword(t) ==>
            r == Step(i + 1, m, Some(UnexpectedToken(t))))
  {
    MeasurementTableKeys();
  }

  /** A sub-block keyword: a repeatable block is appended to its list when it parses; a
      singleton keeps the value of its last occurrence, assigned even when its parser
      fails; the first failure ends the loop with the partial record. */
  lemma MeasurementSubBlock(env: Env, toks: seq<string>, at: nat, m: Measurement, k: SubKind)
    requires env.Valid()
    ensures var s := env.sub(k, toks, at);
      (MeasurementSub(env, toks, at, m, AppendTo(k)) ==
        if s.err.Some? then Stop(s.next, m, s.err) else Continue(s.next, m.(subs := m.subs.Append(k, s.value))))
      && var r := MeasurementSub(env, toks, at, m, Overwrite(k));
      SingleOf(r.value.subs.singles, k) == s.value && (r.Stop? <==> s.err.Some?)
  {
  }

  /** From the start of a block, the record's slots stay in order. */
  lemma MeasurementFromStart(env: Env, toks: seq<string>, i: nat)
    requires env.Valid()
    ensures InSlotOrder(MeasurementRun(env, toks, i, ZeroMeasurement).value)
  {
  }

  /** The sub-block cases of the `switch` in `parseMeasurement`. */
  method ParseMeasurementSubBlock(env: Env, cur: Cursor, m: Measurement, e: Entry)
    returns (d: Measurement, err: Option<Error>)
    requires env.Valid()
    modifies cur
    ensures MeasurementSub(env, cur.toks, old(cur.index), m, e) == Outcome(cur.index, d, err)
  {
    match e {
      case AppendTo(k) =>
        var buf;
        buf, err := ParseSub(env, cur, k);
        d := if err.Some? then m else m.(subs := m.subs.Append(k, buf));
      case Overwrite(k) =>
        var buf;
        buf, err := ParseSub(env, cur, k);
        d := m.(subs := m.subs.Overwrite(k, buf));
      case ToDisplayIdentifier =>
        var buf;
        buf, err := ParseDisplayIdentifier(env, cur);
        d := m.(displayIdentifier := buf);
      case ToPhysUnit =>
        var buf;
        buf, err := ParsePhysUnit(env, cur);
        d := m.(physUnit := buf);
      case ToSymbolLink =>
        var buf;
        buf, err := ParseSymbolLink(env, cur);
        d := m.(symbolLink := buf);
    }
  }

  /** The positional part of the default case of `parseMeasurement`: the literal `t`
      under the cursor goes to the first unset slot. */
  method FillMeasurementSlot(env: Env, cur: Cursor, m: Measurement, t: string)
    returns (d: Measurement, err: Option<Error>)
    requires env.Valid() && t == cur.Current()
    modifies cur
    ensures MeasurementLiteral(env, cur.toks, old(cur.index), m) == Outcome(cur.index, d, err)
  {
    d, err := m, None;
    if !m.name.isSet {
      d := m.(name := Slot(t, true));
    } else if !m.longIdentifier.isSet {
      d := m.(longIdentifier := Slot(t, true));
    } else if !m.dataType.isSet {
      var buf;
      buf, err := ParseDataTypeEnum(env, cur);
      d := m.(dataType := Slot(buf, err.None?));
    } else if !m.conversion.isSet {
      d := m.(conversion := Slot(t, true));
    } else if !m.resolution.isSet {
      var buf := ParseUint(t, 16);
      if buf.IntErr? {
        err := Some(NumError("ParseUint", t, buf.kind));
      } else {
        MaxUintValues();
        d := m.(resolution := Slot(buf.value, true));
      }
    } else if !m.accuracy.isSet {
      if env.floatErr(t).Some? {
        err := Some(FloatError(t, env.floatErr(t).value));
      } else {
        d := m.(accuracy := Slot(t, true));
      }
    } else if !m.lowerLimit.isSet {
      if env.floatErr(t).Some? {
        err := Some(FloatError(t, env.floatErr(t).value));
      } else {
        d := m.(lowerLimit := Slot(t, true));
      }
    } else if !m.upperLimit.isSet {
      if env.floatErr(t).Some? {
        err := Some(FloatError(t, env.floatErr(t).value));
      } else {
        d := m.(upperLimit := Slot(t, true));
      }
    }
  }

  method ParseMeasurement(env: Env, cur: Cursor) returns (m: Measurement, err: Option<Error>)
    requires env.Valid()
    modifies cur
    ensures Step(cur.index, m, err) == MeasurementRun(env, cur.toks, old(cur.index), ZeroMeasurement)
  {
    m := ZeroMeasurement;
    err := None;
    MeasurementTableKeys();
    while true
      invariant MeasurementRun(env, cur.toks, old(cur.index), ZeroMeasurement)
        == MeasurementRun(env, cur.toks, cur.index, m)
      invariant err == None
      decreases |cur.toks| - cur.index
    {
      var t := cur.Next();
      if t in MeasurementTable {
        m, err := ParseMeasurementSubBlock(env, cur, m, MeasurementTable[t]);
        if err.Some? {
          break;
        }
      } else if t == Empty {
        err := Some(UnexpectedEof);
        break;
      } else if t == EndMeasurementToken {
        break;
      } else if env.isKeyword(t) {
        err := Some(UnexpectedToken(t));
        break;
      } else {
        m, err := FillMeasurementSlot(env, cur, m, t);
        if err.Some? {
          break;
        }
      }
    }
  }
}
