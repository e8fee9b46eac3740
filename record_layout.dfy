/** RECORD_LAYOUT: the loop of `parseRecordLayout`, the relative-position check
    `getRecordLayoutRelativePositions`, and `GetRecordLayoutAbsolutePositions`.

    A record layout holds one positional slot (its name) and one value per sub-field
    keyword; the sub-field parsers are outside this model (`Env.layoutField`), and only
    the position and datatype they return, each with its presence flag, are kept. */
module RecordLayouts {
  import opened Tokens
  import opened Collaborators
  import opened Keywords
  import opened PositionChecks

  datatype RecordLayout = RecordLayout(name: Slot<string>, fields: map<SubField, LayoutField>)

  const ZeroRecordLayout := RecordLayout(Slot("", false), map[])

  /** The value of sub-field `f` (Go's zero value when its keyword never occurred). */
  function FieldOf(rl: RecordLayout, f: SubField): LayoutField {
    if f in rl.fields then rl.fields[f] else ZeroField
  }

  /** The sub-field a RECORD_LAYOUT keyword (standard A2L spelling) introduces, if any;
      every one is a singleton, assigned from its parser even when that parser fails. */
  function SubFieldOf(t: string): (f: Option<SubField>)
    ensures f.Some? ==> t != Empty && t != EndRecordLayoutToken
  {
    if t == "ALIGNMENT_BYTE" then Some(AlignmentByte)
    else if t == "ALIGNMENT_FLOAT16_IEEE" then Some(AlignmentFloat16Ieee)
    else if t == "ALIGNMENT_FLOAT32_IEEE" then Some(AlignmentFloat32Ieee)
    else if t == "ALIGNMENT_FLOAT64_IEEE" then Some(AlignmentFloat64Ieee)
    else if t == "ALIGNMENT_INT64" then Some(AlignmentInt64)
    else if t == "ALIGNMENT_LONG" then Some(AlignmentLong)
    else if t == "ALIGNMENT_WORD" then Some(AlignmentWord)
    else if t == "AXIS_PTS_X" then Some(AxisPtsX)
    else if t == "AXIS_PTS_Y" then Some(AxisPtsY)
    else if t == "AXIS_PTS_Z" then Some(AxisPtsZ)
    else if t == "AXIS_PTS_4" then Some(AxisPts4)
    else if t == "AXIS_PTS_5" then Some(AxisPts5)
    else if t == "AXIS_RESCALE_X" then Some(AxisRescaleX)
    else if t == "DIST_OP_X" then Some(DistOpX)
    else if t == "DIST_OP_Y" then Some(DistOpY)
    else if t == "DIST_OP_Z" then Some(DistOpZ)
    else if t == "DIST_OP_4" then Some(DistOp4)
    else if t == "DIST_OP_5" then Some(DistOp5)
    else if t == "FIX_NO_AXIS_PTS_X" then Some(FixNoAxisPtsX)
    else if t == "FIX_NO_AXIS_PTS_Y" then Some(FixNoAxisPtsY)
    else if t == "FIX_NO_AXIS_PTS_Z" then Some(FixNoAxisPtsZ)
    else if t == "FIX_NO_AXIS_PTS_4" then Some(FixNoAxisPts4)
    else if t == "FIX_NO_AXIS_PTS_5" then Some(FixNoAxisPts5)
    else if t == "FNC_VALUES" then Some(FncValues)
    else if t == "IDENTIFICATION" then Some(Identification)
    else if t == "NO_AXIS_PTS_X" then Some(NoAxisPtsX)
    else if t == "NO_AXIS_PTS_Y" then Some(NoAxisPtsY)
    else if t == "NO_AXIS_PTS_Z" then Some(NoAxisPtsZ)
    else if t == "NO_AXIS_PTS_4" then Some(NoAxisPts4)
    else if t == "NO_AXIS_PTS_5" then Some(NoAxisPts5)
    else if t == "NO_RESCALE_X" then Some(NoRescaleX)
    else if t == "OFFSET_X" then Some(OffsetX)
    else if t == "OFFSET_Y" then Some(OffsetY)
    else if t == "OFFSET_Z" then Some(OffsetZ)
    else if t == "OFFSET_4" then Some(Offset4)
    else if t == "OFFSET_5" then Some(Offset5)
    else if t == "RESERVED" then Some(Reserved)
    else if t == "RIP_ADDR_W" then Some(RipAddrW)
    else if t == "RIP_ADDR_X" then Some(RipAddrX)
    else if t == "RIP_ADDR_Y" then Some(RipAddrY)
    else if t == "RIP_ADDR_Z" then Some(RipAddrZ)
    else if t == "RIP_ADDR_4" then Some(RipAddr4)
    else if t == "RIP_ADDR_5" then Some(RipAddr5)
    else if t == "SRC_ADDR_X" then Some(SrcAddrX)
    else if t == "SRC_ADDR_Y" then Some(SrcAddrY)
    else if t == "SRC_ADDR_Z" then Some(SrcAddrZ)
    else if t == "SRC_ADDR_4" then Some(SrcAddr4)
    else if t == "SRC_ADDR_5" then Some(SrcAddr5)
    else if t == "SHIFT_OP_X" then Some(ShiftOpX)
    else if t == "SHIFT_OP_Y" then Some(ShiftOpY)
    else if t == "SHIFT_OP_Z" then Some(ShiftOpZ)
    else if t == "SHIFT_OP_4" then Some(ShiftOp4)
    else if t == "SHIFT_OP_5" then Some(ShiftOp5)
    else if t == "STATIC_RECORD_LAYOUT" then Some(StaticRecordLayout)
    else if t == "STATIC_ADDRESS_OFFSETS" then Some(StaticAddressOffsets)
    else None
  }

  /** One turn of the loop: `tok.next()`, then the `switch` on the token. */
  function RecordLayoutTurn(env: Env, toks: seq<string>, i: nat, rl: RecordLayout): (r: Turn<RecordLayout>)
    requires env.Valid()
    ensures r.next > i
    ensures r.Continue? ==> i + 1 < |toks|
    ensures rl.name.isSet ==> r.value.name == rl.name
    ensures r.Stop? && r.err == None ==> TokenAt(toks, i + 1) == EndRecordLayoutToken && r.next == i + 1
  {
    var t := TokenAt(toks, i + 1);
    if SubFieldOf(t).Some? then
      var f := SubFieldOf(t).value;
      var s := env.layoutField(f, toks, i + 1);
      Outcome(s.next, rl.(fields := rl.fields[f := s.value]), s.err)
    else if t == Empty then Stop(i + 1, rl, Some(UnexpectedEof))
    else if t == EndRecordLayoutToken then Stop(i + 1, rl, None)
    else if env.isKeyword(t) then Stop(i + 1, rl, Some(UnexpectedToken(t)))
    else if !rl.name.isSet then Continue(i + 1, rl.(name := Slot(t, true)))
    else Continue(i + 1, rl)
  }

  /** The whole loop from cursor index `i`: what `parseRecordLayout` returns and where it
      leaves the cursor. A set name is never changed, and success means the cursor is on
      `/end RECORD_LAYOUT`. */
  function RecordLayoutRun(env: Env, toks: seq<string>, i: nat, rl: RecordLayout): (r: Step<RecordLayout>)
    requires env.Valid()
    ensures r.next > i
    ensures rl.name.isSet ==> r.value.name == rl.name
    ensures r.err == None ==> TokenAt(toks, r.next) == EndRecordLayoutToken
    decreases |toks| - i
  {
    match RecordLayoutTurn(env, toks, i, rl)
    case Stop(j, d, e) => Step(j, d, e)
    case Continue(j, d) => RecordLayoutRun(env, toks, j, d)
  }

  /** The positional branch: the first literal becomes the name and sets its flag; any later
      literal is ignored. A sub-field keyword assigns that sub-field from its parser, even
      when the parser fails, and touches nothing else; a failure ends the loop. */
  lemma RecordLayoutLiteralsAndFields(env: Env, toks: seq<string>, i: nat, rl: RecordLayout)
    requires env.Valid()
    ensures var t := TokenAt(toks, i + 1); var r := RecordLayoutTurn(env, toks, i, rl);
      (SubFieldOf(t) == None && t != Empty && t != EndRecordLayoutToken && !env.isKeyword(t) ==>
        r == Continue(i + 1, if rl.name.isSet then rl else rl.(name := Slot(t, true))))
      && (SubFieldOf(t).Some? ==>
        var f := SubFieldOf(t).value; var s := env.layoutField(f, toks, i + 1);
        FieldOf(r.value, f) == s.value && r.next == s.next && r.value.name == rl.name
        && (forall g :: g != f ==> FieldOf(r.value, g) == FieldOf(rl, g))
        && (r.Stop? <==> s.err.Some?) && (r.Stop? ==> r.err == s.err))
  {
  }

  /** The default branch: end of input is an error, `/end RECORD_LAYOUT` ends the loop with
      no error, and any other keyword that names no sub-field is an error. */
  lemma RecordLayoutDefault(env: Env, toks: seq<string>, i: nat, rl: RecordLayout)
    requires env.Valid()
    ensures var t := TokenAt(toks, i + 1); var r := RecordLayoutRun(env, toks, i, rl);
      (t == Empty ==> r == Step(i + 1, rl, Some(UnexpectedEof)))
      && (t == EndRecordLayoutToken ==> r == Step(i + 1, rl, None))
      && (SubFieldOf(t) == None && t != Empty && t != EndRecordLayoutToken && env.isKeyword(t) ==>
            r == Step(i + 1, rl, Some(UnexpectedToken(t))))
  {
  }

  /** A sub-field keyword: its parser's field replaces that sub-field, even when the parser fails. */
  method ParseRecordLayoutSubField(env: Env, cur: Cursor, rl: RecordLayout, f: SubField)
    returns (d: RecordLayout, err: Option<Error>)
    requires env.Valid()
    modifies cur
    ensures var s := env.layoutField(f, cur.toks, old(cur.index));
      cur.index == s.next && d == rl.(fields := rl.fields[f := s.value]) && err == s.err
  {
    var buf;
    buf, err := ParseLayoutField(env, cur, f);
    d := rl.(fields := rl.fields[f := buf]);
  }

  /** One pass of the loop body: `tok.next()` and the `switch`; `stop` is a `break`. */
  method RecordLayoutStep(env: Env, cur: Cursor, rl: RecordLayout) returns (d: RecordLayout, err: Option<Error>, stop: bool)
    requires env.Valid()
    modifies cur
    ensures stop ==> RecordLayoutTurn(env, cur.toks, old(cur.index), rl) == Stop(cur.index, d, err)
    ensures !stop ==> RecordLayoutTurn(env, cur.toks, old(cur.index), rl) == Continue(cur.index, d) && err == None
  {
    d, err, stop := rl, None, true;
    var t := cur.Next();
    if SubFieldOf(t).Some? {
      d, err := ParseRecordLayoutSubField(env, cur, rl, SubFieldOf(t).value);
      stop := err.Some?;
    } else if t == Empty {
      err := Some(UnexpectedEof);
    } else if t == EndRecordLayoutToken {
    } else if env.isKeyword(t) {
      err := Some(UnexpectedToken(t));
    } else {
      stop := false;
      if !rl.name.isSet {
        d := rl.(name := Slot(t, true));
      }
    }
  }

  method ParseRecordLayout(env: Env, cur: Cursor) returns (rl: RecordLayout, err: Option<Error>)
    requires env.Valid()
    modifies cur
    ensures Step(cur.index, rl, err) == RecordLayoutRun(env, cur.toks, old(cur.index), ZeroRecordLayout)
  {
    rl := ZeroRecordLayout;
    err := None;
    while true
      invariant RecordLayoutRun(env, cur.toks, old(cur.index), ZeroRecordLayout)
        == RecordLayoutRun(env, cur.toks, cur.index, rl)
      invariant err == None
      decreases |cur.toks| - cur.index
    {
      var stop;
      rl, err, stop := RecordLayoutStep(env, cur, rl);
      if stop {
        break;
      }
    }
  }

  /** The name the source gives a sub-field in its messages and position map. */
  function FieldName(f: SubField): string {
    match f
    case AlignmentByte => "AlignmentByte"
    case AlignmentFloat16Ieee => "AlignmentFloat16Ieee"
    case AlignmentFloat32Ieee => "AlignmentFloat32Ieee"
    case AlignmentFloat64Ieee => "AlignmentFloat64Ieee"
    case AlignmentInt64 => "AlignmentInt64"
    case AlignmentLong => "AlignmentLong"
    case AlignmentWord => "AlignmentWord"
    case AxisPtsX => "AxisPtsX"
    case AxisPtsY => "AxisPtsY"
    case AxisPtsZ => "AxisPtsZ"
    case AxisPts4 => "AxisPts4"
    case AxisPts5 => "AxisPts5"
    case AxisRescaleX => "AxisRescaleX"
    case DistOpX => "DistOpX"
    case DistOpY => "DistOpY"
    case DistOpZ => "DistOpZ"
    case DistOp4 => "DistOp4"
    case DistOp5 => "DistOp5"
    case FixNoAxisPtsX => "FixNoAxisPtsX"
    case FixNoAxisPtsY => "FixNoAxisPtsY"
    case FixNoAxisPtsZ => "FixNoAxisPtsZ"
    case FixNoAxisPts4 => "FixNoAxisPts4"
    case FixNoAxisPts5 => "FixNoAxisPts5"
    case FncValues => "FncValues"
    case Identification => "Identification"
    case NoAxisPtsX => "NoAxisPtsX"
    case NoAxisPtsY => "NoAxisPtsY"
    case NoAxisPtsZ => "NoAxisPtsZ"
    case NoAxisPts4 => "NoAxisPts4"
    case NoAxisPts5 => "NoAxisPts5"
    case NoRescaleX => "NoRescaleX"
    case OffsetX => "OffsetX"
    case OffsetY => "OffsetY"
    case OffsetZ => "OffsetZ"
    case Offset4 => "Offset4"
    case Offset5 => "Offset5"
    case Reserved => "Reserved"
    case RipAddrW => "RipAddrW"
    case RipAddrX => "RipAddrX"
    case RipAddrY => "RipAddrY"
    case RipAddrZ => "RipAddrZ"
    case RipAddr4 => "RipAddr4"
    case RipAddr5 => "RipAddr5"
    case SrcAddrX => "SrcAddrX"
    case SrcAddrY => "SrcAddrY"
    case SrcAddrZ => "SrcAddrZ"
    case SrcAddr4 => "SrcAddr4"
    case SrcAddr5 => "SrcAddr5"
    case ShiftOpX => "ShiftOpX"
    case ShiftOpY => "ShiftOpY"
    case ShiftOpZ => "ShiftOpZ"
    case ShiftOp4 => "ShiftOp4"
    case ShiftOp5 => "ShiftOp5"
    case StaticRecordLayout => "StaticRecordLayout"
    case StaticAddressOffsets => "StaticAddressOffsets"
  }

  /** The number of sub-fields the relative-position check examines. */
  const CheckCount := 41

  /** The `k`-th sub-field the relative-position check examines, in the order it examines
      them. The alignments, the FIX_NO_AXIS_PTS fields and the two STATIC keywords are
      not among them. */
  function CheckedAt(k: nat): (f: SubField)
    requires k < CheckCount
    ensures !Unchecked(f)
  {
    match k
    case 0 => AxisPts4
    case 1 => AxisPts5
    case 2 => AxisPtsX
    case 3 => AxisPtsY
    case 4 => AxisPtsZ
    case 5 => AxisRescaleX
    case 6 => DistOp4
    case 7 => DistOp5
    case 8 => DistOpX
    case 9 => DistOpY
    case 10 => DistOpZ
    case 11 => FncValues
    case 12 => Identification
    case 13 => NoAxisPts4
    case 14 => NoAxisPts5
    case 15 => NoAxisPtsX
    case 16 => NoAxisPtsY
    case 17 => NoAxisPtsZ
    case 18 => NoRescaleX
    case 19 => Offset4
    case 20 => Offset5
    case 21 => OffsetX
    case 22 => OffsetY
    case 23 => OffsetZ
    case 24 => Reserved
    case 25 => RipAddr4
    case 26 => RipAddr5
    case 27 => RipAddrX
    case 28 => RipAddrY
    case 29 => RipAddrZ
    case 30 => RipAddrW
    case 31 => ShiftOp4
    case 32 => ShiftOp5
    case 33 => ShiftOpX
    case 34 => ShiftOpY
    case 35 => ShiftOpZ
    case 36 => SrcAddr4
    case 37 => SrcAddr5
    case 38 => SrcAddrX
    case 39 => SrcAddrY
    case _ => SrcAddrZ
  }

  function CandidateOf(rl: RecordLayout, f: SubField): Candidate<string> {
    Candidate(FieldOf(rl, f).positionSet, FieldOf(rl, f).position, FieldName(f))
  }

  /** The candidates for the checked sub-fields, in check order. */
  function Candidates(rl: RecordLayout): (cs: seq<Candidate<string>>)
    ensures |cs| == CheckCount && forall k :: 0 <= k < CheckCount ==> cs[k] == CandidateOf(rl, CheckedAt(k))
  {
    seq(CheckCount, k requires 0 <= k < CheckCount => CandidateOf(rl, CheckedAt(k)))
  }

  /** What `getRecordLayoutRelativePositions` returns: the position map and the error. */
  datatype Positions = Positions(order: map<uint16, string>, err: Option<Error>)

  /** `getRecordLayoutRelativePositions`: the checks of the sub-fields in check order. It
      succeeds exactly when the positioned checked sub-fields have pairwise distinct
      positions, and then maps each such position to its field's name and nothing else.
      Otherwise the error names the layout, the earlier field and the first field whose
      position was already taken, and the map holds exactly the fields checked before
      that one. */
  function RelativePositions(rl: RecordLayout): (r: Positions)
    ensures var cs := Candidates(rl);
      && (r.err.None? <==> DistinctBelow(cs, |cs|))
      && (r.err.None? ==> Holds(cs, |cs|, r.order))
      && (r.err.Some? ==>
            exists j, k :: 0 <= j < k < |cs| && FirstCollision(cs, j, k) && Holds(cs, k, r.order)
              && r.err == Some(PositionTwice(rl.name.value, cs[j].name, cs[k].name)))
  {
    var cs := Candidates(rl);
    RelativeFromSpec(cs, 0, map[]);
    var c := RelativeFrom(cs, 0, map[]);
    Positions(c.order, if c.clash.Some? then Some(PositionTwice(rl.name.value, c.clash.value.0, c.clash.value.1)) else None)
  }

  /** The sub-fields the check never examines: the alignments, the FIX_NO_AXIS_PTS fields
      and the two STATIC keywords. */
  predicate Unchecked(f: SubField) {
    || f.AlignmentByte? || f.AlignmentFloat16Ieee? || f.AlignmentFloat32Ieee? || f.AlignmentFloat64Ieee?
    || f.AlignmentInt64? || f.AlignmentLong? || f.AlignmentWord?
    || f.FixNoAxisPtsX? || f.FixNoAxisPtsY? || f.FixNoAxisPtsZ? || f.FixNoAxisPts4? || f.FixNoAxisPts5?
    || f.StaticRecordLayout? || f.StaticAddressOffsets?
  }

  /** Whatever the positions of the unchecked sub-fields, the result is the same; so, as in
      the source's own example, ALIGNMENT_BYTE may share its position with NO_AXIS_PTS_X. */
  lemma RelativeIgnoresUnchecked(rl: RecordLayout, f: SubField, x: LayoutField)
    requires Unchecked(f)
    ensures RelativePositions(rl.(fields := rl.fields[f := x])) == RelativePositions(rl)
  {
    var rl' := rl.(fields := rl.fields[f := x]);
    assert Candidates(rl') == Candidates(rl);
  }

  method GetRecordLayoutRelativePositions(rl: RecordLayout) returns (order: map<uint16, string>, err: Option<Error>)
    ensures Positions(order, err) == RelativePositions(rl)
  {
    order := map[];
    err := None;
    ghost var cs := Candidates(rl);
    var i := 0;
    while i < CheckCount
      invariant i <= CheckCount
      invariant var c := RelativeFrom(cs, i, order);
        RelativePositions(rl) == Positions(c.order, if c.clash.Some? then Some(PositionTwice(rl.name.value, c.clash.value.0, c.clash.value.1)) else None)
    {
      var f := FieldOf(rl, CheckedAt(i));
      if f.positionSet {
        if f.position in order {
          err := Some(PositionTwice(rl.name.value, order[f.position], FieldName(CheckedAt(i))));
          return;
        }
        order := order[f.position := FieldName(CheckedAt(i))];
      }
      i := i + 1;
    }
  }

  /** `getDatatypeByFieldName` as written: its `switch` has no cases, so every name yields
      the undefined datatype and no error. */
  function GetDatatypeByFieldName(name: string): (r: (DataType, Option<Error>))
    ensures r.0 == UndefinedDatatype && r.1 == None
  {
    (UndefinedDatatype, None)
  }

  /** `GetRecordLayoutAbsolutePositions` as written: an error of the relative check is
      returned unchanged; otherwise the positions are sorted and visited, but nothing is
      ever stored, so the result is always the empty map. `relPos` is not read. */
  method GetRecordLayoutAbsolutePositions(rl: RecordLayout, relPos: map<uint16, string>)
    returns (orderAbs: map<string, uint16>, err: Option<Error>)
    ensures orderAbs == map[]
    ensures err == RelativePositions(rl).err
  {
    orderAbs := map[];
    var orderRel;
    orderRel, err := GetRecordLayoutRelativePositions(rl);
    if err.Some? {
      return;
    }
    var positions := SortedPositions(orderRel);
    for k := 0 to |positions|
      invariant err == None
    {
      assert positions[k] in orderRel;
      var r := GetDatatypeByFieldName(orderRel[positions[k]]);
      if r.1.Some? {
        err := r.1;
        return;
      }
    }
  }

  /** The datatype of the checked sub-field at relative position `p`, searching the check
      order from index `k` (the lookup `getDatatypeByFieldName` evidently stands for). */
  function DataTypeAt(rl: RecordLayout, p: uint16, k: nat): DataType
    requires k <= CheckCount
    decreases CheckCount - k
  {
    if k == CheckCount then UndefinedDatatype
    else if Candidates(rl)[k].placed && Candidates(rl)[k].position == p then FieldOf(rl, CheckedAt(k)).dataType
    else DataTypeAt(rl, p, k + 1)
  }

  /** The absolute positions the doc comment of `GetRecordLayoutAbsolutePositions` describes,
      for a datatype length function `length` (the unit of `GetDatatypeLength`): in
      ascending order of relative position, each positioned field starts where the fields
      before it end, the first at 0. The result is keyed by relative position; the field
      at each is the one the relative map names. Errors of the relative check are
      returned unchanged. */
  function IntendedAbsolutePositions(rl: RecordLayout, length: DataType -> nat): (r: (map<uint16, nat>, Option<Error>))
    ensures r.1 == RelativePositions(rl).err
    ensures r.1.None? ==>
      var rel := RelativePositions(rl).order; var ps := SortedPositions(rel);
      && (forall p :: p in r.0 <==> p in rel)
      && (forall m :: 0 <= m < |ps| ==> r.0[ps[m]] == Span(ps[..m], p => length(DataTypeAt(rl, p, 0))))
  {
    var rel := RelativePositions(rl);
    if rel.err.Some? then (map[], rel.err)
    else
      var ps := SortedPositions(rel.order);
      var width := p => length(DataTypeAt(rl, p, 0));
      OffsetsSpec(ps, width, 0);
      (Offsets(ps, width, 0), None)
  }

  /** What the source loses: whenever the relative check succeeds with at least one
      positioned field, the intended result has an entry for every one of them, while
      `GetRecordLayoutAbsolutePositions` returns the empty map. */
  lemma AbsolutePositionsLost(rl: RecordLayout, length: DataType -> nat)
    requires RelativePositions(rl).err.None? && RelativePositions(rl).order != map[]
    ensures var r := IntendedAbsolutePositions(rl, length);
      r.1 == None && r.0 != map[] && r.0.Keys == RelativePositions(rl).order.Keys
  {
    var rel := RelativePositions(rl).order;
    var r := IntendedAbsolutePositions(rl, length).0;
    assert r.Keys == rel.Keys;
  }

  /** FNC_VALUES is examined at place 11 only. */
  lemma FncValuesCheckedOnce(k: nat)
    requires k < CheckCount && k != 11
    ensures CheckedAt(k) != FncValues
  {
  }

  /** A layout in which the check succeeds with one positioned field, FNC_VALUES at 7. */
  const OneFieldLayout := RecordLayout(Slot("L", true), map[FncValues := LayoutField(7, true, SWord, true)])

  lemma OneFieldLayoutPositions()
    ensures RelativePositions(OneFieldLayout) == Positions(map[7 := "FncValues"], None)
  {
    var cs := Candidates(OneFieldLayout);
    forall k | 0 <= k < CheckCount && k != 11
      ensures !cs[k].placed
    {
      FncValuesCheckedOnce(k);
    }
    assert cs[11].placed && cs[11].position == 7 && cs[11].name == "FncValues";
    var r := RelativePositions(OneFieldLayout);
    assert DistinctBelow(cs, |cs|);
    assert Holds(cs, |cs|, r.order);
    assert r.order.Keys == {7} by {
      forall p | p in r.order
        ensures p == 7
      {
        var k :| 0 <= k < |cs| && cs[k].placed && cs[k].position == p;
      }
    }
    assert r.order == map[7 := "FncValues"];
  }

  /** The intended offsets are increasing with relative position and no two fields
      overlap: the field at a lower position ends no later than the next one starts. */
  lemma IntendedNoOverlap(rl: RecordLayout, length: DataType -> nat, m1: nat, m2: nat)
    requires RelativePositions(rl).err.None?
    requires m1 < m2 < |SortedPositions(RelativePositions(rl).order)|
    ensures var ps := SortedPositions(RelativePositions(rl).order); var r := IntendedAbsolutePositions(rl, length).0;
      r[ps[m1]] + length(DataTypeAt(rl, ps[m1], 0)) <= r[ps[m2]]
  {
    var ps := SortedPositions(RelativePositions(rl).order);
    SpanOrdered(ps, p => length(DataTypeAt(rl, p, 0)), m1, m2);
  }
}
