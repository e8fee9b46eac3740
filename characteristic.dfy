/** CHARACTERISTIC: the loop of `parseCharacteristic`.

    Each turn advances the cursor and looks at the token. A sub-block keyword hands
    the cursor to that sub-block's parser: a repeatable sub-block is appended when it
    parses, a singleton is assigned whatever the outcome, and any failure ends the loop
    with the record built so far. Otherwise end of input and a foreign keyword are
    errors, `/end CHARACTERISTIC` ends the loop, and a literal fills the first of nine
    positional slots still unset; literals beyond the ninth are ignored. */
module Characteristics {
  import opened Tokens
  import opened Collaborators
  import opened Keywords
  import opened DisplayIdentifiers
  import opened PhysUnits
  import opened SymbolLinks

  /** The floating-point slots hold the literal text that `strconv.ParseFloat` accepted.
      `AddressUint32` is a field of the source's record that parsing never assigns. */
  datatype Characteristic = Characteristic(
    name: Slot<string>,
    longIdentifier: Slot<string>,
    charType: Slot<CharType>,
    address: Slot<string>,
    addressUint32: nat,
    deposit: Slot<string>,
    maxDiff: Slot<string>,
    conversion: Slot<string>,
    lowerLimit: Slot<string>,
    upperLimit: Slot<string>,
    subs: SubBlocks,
    displayIdentifier: DisplayIdentifier,
    physUnit: PhysUnit,
    symbolLink: SymbolLink)

  const NoText := Slot("", false)

  const ZeroCharacteristic := Characteristic(
    NoText, NoText, Slot(UndefinedType, false), NoText, 0, NoText, NoText, NoText, NoText, NoText,
    NoSubBlocks, ZeroDisplayIdentifier, ZeroPhysUnit, ZeroSymbolLink)

  /** The sub-block keywords of CHARACTERISTIC and what the loop does with each. */
  const CharacteristicTable: map<string, Entry> := map[
    BeginAnnotationToken := AppendTo(Annotation),
    BeginAxisDescrToken := AppendTo(AxisDescr),
    BitMaskToken := Overwrite(BitMask),
    ByteOrderToken := Overwrite(ByteOrder),
    CalibrationAccessToken := Overwrite(CalibrationAccess),
    ComparisonQuantityToken := Overwrite(ComparisonQuantity),
    BeginDependentCharacteristicToken := AppendTo(DependentCharacteristic),
    DiscreteToken := Overwrite(Discrete),
    DisplayIdentifierToken := ToDisplayIdentifier,
    EncodingToken := Overwrite(Encoding),
    EcuAddressExtensionToken := Overwrite(EcuAddressExtension),
    ExtendedLimitsToken := Overwrite(ExtendedLimits),
    FormatToken := Overwrite(Format),
    BeginFunctionListToken := AppendTo(FunctionList),
    GuardRailsToken := Overwrite(GuardRails),
    BeginIfDataToken := AppendTo(IfData),
    BeginMapListToken := AppendTo(MapList),
    MatrixDimToken := Overwrite(MatrixDim),
    MaxRefreshToken := Overwrite(MaxRefresh),
    ModelLinkToken := Overwrite(ModelLink),
    NumberToken := Overwrite(Number),
    PhysUnitToken := ToPhysUnit,
    ReadOnlyToken := Overwrite(ReadOnly),
    RefMemorySegmentToken := Overwrite(RefMemorySegment),
    StepSizeToken := Overwrite(StepSize),
    SymbolLinkToken := ToSymbolLink,
    BeginVirtualCharacteristicToken := AppendTo(VirtualCharacteristic)
  ]

  lemma CharacteristicTableKeys()
    ensures Empty !in CharacteristicTable && EndCharacteristicToken !in CharacteristicTable
  {
  }

  /** Presence flags set in slot order: each set flag has the one before it set. */
  predicate InSlotOrder(c: Characteristic) {
    && (c.longIdentifier.isSet ==> c.name.isSet)
    && (c.charType.isSet ==> c.longIdentifier.isSet)
    && (c.address.isSet ==> c.charType.isSet)
    && (c.deposit.isSet ==> c.address.isSet)
    && (c.maxDiff.isSet ==> c.deposit.isSet)
    && (c.conversion.isSet ==> c.maxDiff.isSet)
    && (c.lowerLimit.isSet ==> c.conversion.isSet)
    && (c.upperLimit.isSet ==> c.lowerLimit.isSet)
  }

  /** The slot a literal goes to: the first whose flag is unset (9 when all are set). */
  function FirstUnset(c: Characteristic): (n: nat)
    ensures n <= 9
  {
    if !c.name.isSet then 0
    else if !c.longIdentifier.isSet then 1
    else if !c.charType.isSet then 2
    else if !c.address.isSet then 3
    else if !c.deposit.isSet then 4
    else if !c.maxDiff.isSet then 5
    else if !c.conversion.isSet then 6
    else if !c.lowerLimit.isSet then 7
    else if !c.upperLimit.isSet then 8
    else 9
  }

  /** The presence flag of slot `k`. */
  function Flag(c: Characteristic, k: nat): bool {
    match k
    case 0 => c.name.isSet
    case 1 => c.longIdentifier.isSet
    case 2 => c.charType.isSet
    case 3 => c.address.isSet
    case 4 => c.deposit.isSet
    case 5 => c.maxDiff.isSet
    case 6 => c.conversion.isSet
    case 7 => c.lowerLimit.isSet
    case 8 => c.upperLimit.isSet
    case _ => false
  }

  /** The literal text stored in slot `k` (the type slot holds an enum, not text). */
  function SlotText(c: Characteristic, k: nat): string {
    match k
    case 0 => c.name.value
    case 1 => c.longIdentifier.value
    case 3 => c.address.value
    case 4 => c.deposit.value
    case 5 => c.maxDiff.value
    case 6 => c.conversion.value
    case 7 => c.lowerLimit.value
    case 8 => c.upperLimit.value
    case _ => ""
  }

  /** `d` keeps every slot `c` had set, with its value, and never touches `AddressUint32`. */
  predicate Kept(c: Characteristic, d: Characteristic) {
    && KeptSlot(c.name, d.name)
    && KeptSlot(c.longIdentifier, d.longIdentifier)
    && KeptSlot(c.charType, d.charType)
    && KeptSlot(c.address, d.address)
    && KeptSlot(c.deposit, d.deposit)
    && KeptSlot(c.maxDiff, d.maxDiff)
    && KeptSlot(c.conversion, d.conversion)
    && KeptSlot(c.lowerLimit, d.lowerLimit)
    && KeptSlot(c.upperLimit, d.upperLimit)
    && d.addressUint32 == c.addressUint32
  }

  /** The positional branch of the default case, for the literal under the cursor at `at`. */
  function CharacteristicLiteral(env: Env, toks: seq<string>, at: nat, c: Characteristic): (r: Turn<Characteristic>)
    requires env.Valid()
    ensures r.next >= at
    ensures Kept(c, r.value) && r.value.subs == c.subs
    ensures InSlotOrder(c) ==> InSlotOrder(r.value)
    ensures r.Stop? ==> r.err.Some?
  {
    var t := TokenAt(toks, at);
    if !c.name.isSet then Continue(at, c.(name := Slot(t, true)))
    else if !c.longIdentifier.isSet then Continue(at, c.(longIdentifier := Slot(t, true)))
    else if !c.charType.isSet then
      var s := env.typeEnum(toks, at);
      if s.err.Some? then Stop(s.next, c.(charType := Slot(s.value, false)), s.err)
      else Continue(s.next, c.(charType := Slot(s.value, true)))
    else if !c.address.isSet then Continue(at, c.(address := Slot(t, true)))
    else if !c.deposit.isSet then Continue(at, c.(deposit := Slot(t, true)))
    else if !c.maxDiff.isSet then
      if env.floatErr(t).Some? then Stop(at, c, Some(FloatError(t, env.floatErr(t).value)))
      else Continue(at, c.(maxDiff := Slot(t, true)))
    else if !c.conversion.isSet then Continue(at, c.(conversion := Slot(t, true)))
    else if !c.lowerLimit.isSet then
      if env.floatErr(t).Some? then Stop(at, c, Some(FloatError(t, env.floatErr(t).value)))
      else Continue(at, c.(lowerLimit := Slot(t, true)))
    else if !c.upperLimit.isSet then
      if env.floatErr(t).Some? then Stop(at, c, Some(FloatError(t, env.floatErr(t).value)))
      else Continue(at, c.(upperLimit := Slot(t, true)))
    else Continue(at, c)
  }

  /** A sub-block branch of the `switch`, for the keyword under the cursor at `at`. */
  function CharacteristicSub(env: Env, toks: seq<string>, at: nat, c: Characteristic, e: Entry): (r: Turn<Characteristic>)
    requires env.Valid()
    ensures r.next >= at
    ensures r.Stop? ==> r.err.Some?
    ensures Kept(c, r.value) && Extends(c.subs, r.value.subs)
    ensures InSlotOrder(c) ==> InSlotOrder(r.value)
  {
    match e
    case AppendTo(k) =>
      var s := env.sub(k, toks, at);
      if s.err.Some? then Stop(s.next, c, s.err)
      else Continue(s.next, c.(subs := c.subs.Append(k, s.value)))
    case Overwrite(k) =>
      var s := env.sub(k, toks, at);
      Outcome(s.next, c.(subs := c.subs.Overwrite(k, s.value)), s.err)
    case ToDisplayIdentifier =>
      var s := DisplayIdentifierOf(env, toks, at);
      Outcome(s.next, c.(displayIdentifier := s.value), s.err)
    case ToPhysUnit =>
      var s := PhysUnitOf(env, toks, at);
      Outcome(s.next, c.(physUnit := s.value), s.err)
    case ToSymbolLink =>
      var s := SymbolLinkRun(env, toks, at, ZeroSymbolLink);
      Outcome(s.next, c.(symbolLink := s.value), s.err)
  }

  /** One turn of the loop: `tok.next()`, then the `switch` on the token. */
  function CharacteristicTurn(env: Env, toks: seq<string>, i: nat, c: Characteristic): (r: Turn<Characteristic>)
    requires env.Valid()
    ensures r.next > i
    ensures r.Continue? ==> i + 1 < |toks|
    ensures Kept(c, r.value) && Extends(c.subs, r.value.subs)
    ensures InSlotOrder(c) ==> InSlotOrder(r.value)
    ensures r.Stop? && r.err == None ==> TokenAt(toks, i + 1) == EndCharacteristicToken && r.next == i + 1
  {
    var t := TokenAt(toks, i + 1);
    CharacteristicTableKeys();
    if t in CharacteristicTable then CharacteristicSub(env, toks, i + 1, c, CharacteristicTable[t])
    else if t == Empty then Stop(i + 1, c, Some(UnexpectedEof))
    else if t == EndCharacteristicToken then Stop(i + 1, c, None)
    else if env.isKeyword(t) then Stop(i + 1, c, Some(UnexpectedToken(t)))
    else CharacteristicLiteral(env, toks, i + 1, c)
  }

  /** The whole loop from cursor index `i`: what `parseCharacteristic` returns and where
      it leaves the cursor. Across the loop set slots keep their values, lists only grow
      at their ends, the slot order is kept, and success means the cursor is on
      `/end CHARACTERISTIC`. */
  function CharacteristicRun(env: Env, toks: seq<string>, i: nat, c: Characteristic): (r: Step<Characteristic>)
    requires env.Valid()
    ensures r.next > i
    ensures Kept(c, r.value) && Extends(c.subs, r.value.subs)
    ensures InSlotOrder(c) ==> InSlotOrder(r.value)
    ensures r.err == None ==> TokenAt(toks, r.next) == EndCharacteristicToken
    decreases |toks| - i
  {
    match CharacteristicTurn(env, toks, i, c)
    case Stop(j, d, e) => Step(j, d, e)
    case Continue(j, d) =>
      var r := CharacteristicRun(env, toks, j, d);
      ExtendsTrans(c.subs, d.subs, r.value.subs);
      r
  }

  /** A literal fills the first unset slot and sets exactly that flag, in the order Name,
      LongIdentifier, Type, Address, Deposit, MaxDiff, Conversion, LowerLimit,
      UpperLimit; the text slots (Address and Deposit included) store the token
      verbatim; once all nine are set a literal changes nothing. */
  lemma CharacteristicLiteralFills(env: Env, toks: seq<string>, at: nat, c: Characteristic)
    requires env.Valid() && InSlotOrder(c)
    ensures var r := CharacteristicLiteral(env, toks, at, c); var n := FirstUnset(c);
      (forall k :: 0 <= k < 9 ==> (Flag(c, k) <==> k < n))
      && (n == 9 ==> r == Continue(at, c))
      && (n < 9 && r.Continue? ==>
            FirstUnset(r.value) == n + 1 && forall k :: 0 <= k < 9 ==> (Flag(r.value, k) <==> k <= n))
      && (n < 9 && n != 2 && r.Continue? ==> SlotText(r.value, n) == TokenAt(toks, at) && r.next == at)
      && (n == 2 ==> r.value.charType.value == env.typeEnum(toks, at).value && r.next == env.typeEnum(toks, at).next)
  {
  }

  /** A literal in a slot that must parse: a failed type parse or float parse ends the
      loop with the error and leaves that slot's flag unset; the other slots never fail. */
  lemma CharacteristicSlotFailure(env: Env, toks: seq<string>, at: nat, c: Characteristic)
    requires env.Valid()
    ensures var r := CharacteristicLiteral(env, toks, at, c); var n := FirstUnset(c);
      var t := TokenAt(toks, at);
      (n == 2 ==> (r.Stop? <==> env.typeEnum(toks, at).err.Some?))
      && (n == 2 && r.Stop? ==> r.err == env.typeEnum(toks, at).err && !r.value.charType.isSet)
      && (n in {5, 7, 8} ==> (r.Stop? <==> env.floatErr(t).Some?))
      && (n in {5, 7, 8} && r.Stop? ==> r.err == Some(FloatError(t, env.floatErr(t).value)) && !Flag(r.value, n))
      && (n !in {2, 5, 7, 8} ==> r.Continue?)
  {
  }

  /** The default branch: end of input is an error, `/end CHARACTERISTIC` ends the loop
      with no error, and any other keyword that opens no sub-block is an error. */
  lemma CharacteristicDefault(env: Env, toks: seq<string>, i: nat, c: Characteristic)
    requires env.Valid()
    ensures var t := TokenAt(toks, i + 1); var r := CharacteristicRun(env, toks, i, c);
      (t == Empty ==> r == Step(i + 1, c, Some(UnexpectedEof)))
      && (t == EndCharacteristicToken ==> r == Step(i + 1, c, None))
      && (t !in CharacteristicTable && t != Empty && t != EndCharacteristicToken && env.isKeyword(t) ==>
            r == Step(i + 1, c, Some(UnexpectedToken(t))))
  {
    CharacteristicTableKeys();
  }

  /** A sub-block keyword: a repeatable block is appended to its list when it parses; a
      singleton keeps the value of its last occurrence, assigned even when its parser
      fails; the first failure ends the loop with the partial record. */
  lemma CharacteristicSubBlock(env: Env, toks: seq<string>, at: nat, c: Characteristic, k: SubKind)
    requires env.Valid()
    ensures var s := env.sub(k, toks, at);
      (CharacteristicSub(env, toks, at, c, AppendTo(k)) ==
        if s.err.Some? then Stop(s.next, c, s.err) else Continue(s.next, c.(subs := c.subs.Append(k, s.value))))
      && var r := CharacteristicSub(env, toks, at, c, Overwrite(k));
      SingleOf(r.value.subs.singles, k) == s.value && (r.Stop? <==> s.err.Some?)
  {
  }

  /** From the start of a block, the record keeps `AddressUint32` at zero and its slots
      in order. */
  lemma CharacteristicFromStart(env: Env, toks: seq<string>, i: nat)
    requires env.Valid()
    ensures var r := CharacteristicRun(env, toks, i, ZeroCharacteristic);
      r.value.addressUint32 == 0 && InSlotOrder(r.value)
  {
  }

  /** The sub-block cases of the `switch` in `parseCharacteristic`. */
  method ParseCharacteristicSubBlock(env: Env, cur: Cursor, c: Characteristic, e: Entry)
    returns (d: Characteristic, err: Option<Error>)
    requires env.Valid()
    modifies cur
    ensures CharacteristicSub(env, cur.toks, old(cur.index), c, e) == Outcome(cur.index, d, err)
  {
    match e {
      case AppendTo(k) =>
        var buf;
        buf, err := ParseSub(env, cur, k);
        d := if err.Some? then c else c.(subs := c.subs.Append(k, buf));
      case Overwrite(k) =>
        var buf;
        buf, err := ParseSub(env, cur, k);
        d := c.(subs := c.subs.Overwrite(k, buf));
      case ToDisplayIdentifier =>
        var buf;
        buf, err := ParseDisplayIdentifier(env, cur);
        d := c.(displayIdentifier := buf);
      case ToPhysUnit =>
        var buf;
        buf, err := ParsePhysUnit(env, cur);
        d := c.(physUnit := buf);
      case ToSymbolLink =>
        var buf;
        buf, err := ParseSymbolLink(env, cur);
        d := c.(symbolLink := buf);
    }
  }

  /** The positional part of the default case of `parseCharacteristic`: the literal `t`
      under the cursor goes to the first unset slot. */
  method FillCharacteristicSlot(env: Env, cur: Cursor, c: Characteristic, t: string)
    returns (d: Characteristic, err: Option<Error>)
    requires env.Valid() && t == cur.Current()
    modifies cur
    ensures CharacteristicLiteral(env, cur.toks, old(cur.index), c) == Outcome(cur.index, d, err)
  {
    d, err := c, None;
    if !c.name.isSet {
      d := c.(name := Slot(t, true));
    } else if !c.longIdentifier.isSet {
      d := c.(longIdentifier := Slot(t, true));
    } else if !c.charType.isSet {
      var buf;
      buf, err := ParseTypeEnum(env, cur);
      d := c.(charType := Slot(buf, err.None?));
    } else if !c.address.isSet {
      d := c.(address := Slot(t, true));
    } else if !c.deposit.isSet {
      d := c.(deposit := Slot(t, true));
    } else if !c.maxDiff.isSet {
      if env.floatErr(t).Some? {
        err := Some(FloatError(t, env.floatErr(t).value));
      } else {
        d := c.(maxDiff := Slot(t, true));
      }
    } else if !c.conversion.isSet {
      d := c.(conversion := Slot(t, true));
    } else if !c.lowerLimit.isSet {
      if env.floatErr(t).Some? {
        err := Some(FloatError(t, env.floatErr(t).value));
      } else {
        d := c.(lowerLimit := Slot(t, true));
      }
    } else if !c.upperLimit.isSet {
      if env.floatErr(t).Some? {
        err := Some(FloatError(t, env.floatErr(t).value));
      } else {
        d := c.(upperLimit := Slot(t, true));
      }
    }
  }

  method ParseCharacteristic(env: Env, cur: Cursor) returns (c: Characteristic, err: Option<Error>)
    requires env.Valid()
    modifies cur
    ensures Step(cur.index, c, err) == CharacteristicRun(env, cur.toks, old(cur.index), ZeroCharacteristic)
  {
    c := ZeroCharacteristic;
    err := None;
    CharacteristicTableKeys();
    while true
      invariant CharacteristicRun(env, cur.toks, old(cur.index), ZeroCharacteristic)
        == CharacteristicRun(env, cur.toks, cur.index, c)
      invariant err == None
      decreases |cur.toks| - cur.index
    {
      var t := cur.Next();
      if t in CharacteristicTable {
        c, err := ParseCharacteristicSubBlock(env, cur, c, CharacteristicTable[t]);
        if err.Some? {
          break;
        }
      } else if t == Empty {
        err := Some(UnexpectedEof);
        break;
      } else if t == EndCharacteristicToken {
        break;
      } else if env.isKeyword(t) {
        err := Some(UnexpectedToken(t));
        break;
      } else {
        c, err := FillCharacteristicSlot(env, cur, c, t);
        if err.Some? {
          break;
        }
      }
    }
  }
}
