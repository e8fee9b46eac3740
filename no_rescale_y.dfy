/** NO_RESCALE_Y: a RECORD_LAYOUT sub-field holding a uint16 position, then a datatype. */
module NoRescaleYs {
  import opened Tokens
  import opened Collaborators
  import opened Numbers

  datatype NoRescaleY = NoRescaleY(position: uint16, positionSet: bool, dataType: DataType, dataTypeSet: bool)

  const ZeroNoRescaleY := NoRescaleY(0, false, UndefinedDatatype, false)

  /** The loop of `parseNoRescaleY` from cursor index `i` with the record built so far. */
  function NoRescaleYRun(env: Env, toks: seq<string>, i: nat, nry: NoRescaleY): (r: Step<NoRescaleY>)
    requires env.Valid()
    ensures r.next > i
    ensures r.value.dataTypeSet && !nry.dataTypeSet ==> r.err == None && r.value.positionSet
    decreases |toks| - i
  {
    var t := TokenAt(toks, i + 1);
    if t == Empty then Step(i + 1, nry, Some(UnexpectedEof))
    else if !nry.positionSet then
      match ParseUint(t, 16)
      case IntErr(k) => Step(i + 1, nry, Some(NumError("ParseUint", t, k)))
      case IntOk(v) =>
        MaxUintValues();
        NoRescaleYRun(env, toks, i + 1, nry.(position := v, positionSet := true))
    else if !nry.dataTypeSet then
      var s := env.dataTypeEnum(toks, i + 1);
      if s.err.Some? then Step(s.next, nry, s.err)
      else Step(s.next, nry.(dataType := s.value, dataTypeSet := true), None)
    else NoRescaleYRun(env, toks, i + 1, nry)
  }

  /** From the start of a NO_RESCALE_Y: it succeeds exactly when the first token is a
      base-10 uint16 and the datatype parse of the second succeeds; the position is then
      the value of the first token, and both flags are set. */
  lemma NoRescaleYSuccess(env: Env, toks: seq<string>, i: nat)
    requires env.Valid()
    ensures var r := NoRescaleYRun(env, toks, i, ZeroNoRescaleY);
      var t1 := TokenAt(toks, i + 1); var d := env.dataTypeEnum(toks, i + 2);
      (r.err == None <==>
        t1 != Empty && ParseUint(t1, 16).IntOk? && TokenAt(toks, i + 2) != Empty && d.err == None)
      && (r.err == None ==>
        r.next == d.next && r.value.positionSet && r.value.dataTypeSet
        && AllDigits(t1) && r.value.position == DecValue(t1) && r.value.position <= 0xFFFF
        && r.value.dataType == d.value)
  {
    var t1 := TokenAt(toks, i + 1);
    ParseUintOk(t1, 16);
    if t1 != Empty && ParseUint(t1, 16).IntOk? {
      MaxUintValues();
      assert NoRescaleYRun(env, toks, i, ZeroNoRescaleY)
        == NoRescaleYRun(env, toks, i + 1, ZeroNoRescaleY.(position := ParseUint(t1, 16).value, positionSet := true));
    }
  }

  /** There is no keyword check: a token that does not start with a digit, keyword or not,
      fails in the position slot as a `ParseUint` syntax error. */
  lemma NoRescaleYNoKeywordCheck(env: Env, toks: seq<string>, i: nat)
    requires env.Valid()
    ensures var t1 := TokenAt(toks, i + 1);
      t1 != Empty && !IsDigit(t1[0]) ==>
        NoRescaleYRun(env, toks, i, ZeroNoRescaleY).err == Some(NumError("ParseUint", t1, Syntax))
  {
    var t1 := TokenAt(toks, i + 1);
    ParseUintSpec(t1, 16);
    if t1 != Empty && !IsDigit(t1[0]) {
      assert t1[..0] == "";
    }
  }

  method ParseNoRescaleY(env: Env, cur: Cursor) returns (nry: NoRescaleY, err: Option<Error>)
    requires env.Valid()
    modifies cur
    ensures Step(cur.index, nry, err) == NoRescaleYRun(env, cur.toks, old(cur.index), ZeroNoRescaleY)
  {
    nry := ZeroNoRescaleY;
    err := None;
    while true
      invariant NoRescaleYRun(env, cur.toks, old(cur.index), ZeroNoRescaleY) == NoRescaleYRun(env, cur.toks, cur.index, nry)
      decreases |cur.toks| - cur.index
    {
      var t := cur.Next();
      if t == Empty {
        err := Some(UnexpectedEof);
        break;
      } else if !nry.positionSet {
        var buf := ParseUint(t, 16);
        if buf.IntErr? {
          err := Some(NumError("ParseUint", t, buf.kind));
          break;
        }
        MaxUintValues();
        nry := nry.(position := buf.value, positionSet := true);
      } else if !nry.dataTypeSet {
        var buf;
        buf, err := ParseDataTypeEnum(env, cur);
        if err.Some? {
          break;
        }
        nry := nry.(dataType := buf, dataTypeSet := true);
        break;
      }
    }
  }
}
