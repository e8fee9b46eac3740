/** FRAME: the loop of `parseFrame`, which differs from the other block parsers.

    It treats end of input as a normal end of the block, it makes no keyword check,
    and it never sets any presence flag; so every literal overwrites `name`, and the
    branches for the long identifier, the scaling unit and the rate can never run. */
module Frames {
  import opened Tokens
  import opened Collaborators
  import opened Keywords
  import opened Numbers

  datatype FrameBlock = FrameBlock(
    name: string, nameSet: bool,
    longIdentifier: string, longIdentifierSet: bool,
    scalingUnit: uint16, scalingUnitSet: bool,
    rate: nat, rateSet: bool,
    frameMeasurement: SubRecord,
    ifData: seq<SubRecord>)

  const ZeroFrame := FrameBlock("", false, "", false, 0, false, 0, false, ZeroRecord, [])

  /** The state every reachable FRAME record is in: no flag set, the three trailing
      attributes at their zero values. */
  predicate Untouched(f: FrameBlock) {
    && !f.nameSet && !f.longIdentifierSet && !f.scalingUnitSet && !f.rateSet
    && f.longIdentifier == "" && f.scalingUnit == 0 && f.rate == 0
  }

  /** A token the loop files as a literal: everything except the two sub-block
      keywords, end of input and `/end FRAME`. */
  predicate FrameLiteral(t: string) {
    t != FrameMeasurementToken && t != BeginIfDataToken && t != Empty && t != EndFrameToken
  }

  /** The loop of `parseFrame` from cursor index `i` with the record built so far. */
  function FrameRun(env: Env, toks: seq<string>, i: nat, f: FrameBlock): (r: Step<FrameBlock>)
    requires env.Valid()
    ensures r.next > i
    ensures f.ifData <= r.value.ifData
    ensures Untouched(f) ==> Untouched(r.value)
    ensures r.err == None ==> TokenAt(toks, r.next) in {Empty, EndFrameToken}
    decreases |toks| - i
  {
    var t := TokenAt(toks, i + 1);
    if t == FrameMeasurementToken then
      var s := env.sub(FrameMeasurement, toks, i + 1);
      if s.err.Some? then Step(s.next, f, s.err)
      else FrameRun(env, toks, s.next, f.(frameMeasurement := s.value))
    else if t == BeginIfDataToken then
      var s := env.sub(IfData, toks, i + 1);
      if s.err.Some? then Step(s.next, f, s.err)
      else FrameRun(env, toks, s.next, f.(ifData := f.ifData + [s.value]))
    else if t == Empty then Step(i + 1, f, None)
    else if t == EndFrameToken then Step(i + 1, f, None)
    else if !f.nameSet then FrameRun(env, toks, i + 1, f.(name := t))
    else if !f.longIdentifierSet then FrameRun(env, toks, i + 1, f.(longIdentifier := t))
    else if !f.scalingUnitSet then
      match ParseUint(t, 16)
      case IntErr(k) => Step(i + 1, f, Some(NumError("ParseUint", t, k)))
      case IntOk(v) =>
        MaxUintValues();
        FrameRun(env, toks, i + 1, f.(scalingUnit := v))
    else if !f.rateSet then
      match ParseUint(t, 32)
      case IntErr(k) => Step(i + 1, f, Some(NumError("ParseUint", t, k)))
      case IntOk(v) => FrameRun(env, toks, i + 1, f.(rate := v))
    else FrameRun(env, toks, i + 1, f)
  }

  /** A parsed FRAME never has any flag set, and its long identifier, scaling unit and
      rate keep their zero values. */
  lemma FrameTrailingUnreachable(env: Env, toks: seq<string>, i: nat)
    requires env.Valid()
    ensures var r := FrameRun(env, toks, i, ZeroFrame).value;
      !r.nameSet && r.longIdentifier == "" && r.scalingUnit == 0 && r.rate == 0
  {
  }

  /** On a stretch of literals closed by `/end FRAME`, the frame's name is the LAST of
      them: each literal overwrites the one before, keywords included. */
  lemma {:induction false} FrameLastLiteralWins(env: Env, toks: seq<string>, i: nat, j: nat, f: FrameBlock)
    requires env.Valid() && Untouched(f) && i < j
    requires forall k :: i < k <= j ==> FrameLiteral(TokenAt(toks, k))
    requires TokenAt(toks, j + 1) == EndFrameToken
    ensures FrameRun(env, toks, i, f) == Step(j + 1, f.(name := TokenAt(toks, j)), None)
    decreases j - i
  {
    var t := TokenAt(toks, i + 1);
    assert FrameLiteral(t);
    assert FrameRun(env, toks, i, f) == FrameRun(env, toks, i + 1, f.(name := t));
    if i + 1 < j {
      FrameLastLiteralWins(env, toks, i + 1, j, f.(name := t));
      assert f.(name := t).(name := TokenAt(toks, j)) == f.(name := TokenAt(toks, j));
    }
  }

  /** End of input ends the block like `/end FRAME` does: with no error. */
  lemma FrameEndOfInput(env: Env, toks: seq<string>, i: nat, f: FrameBlock)
    requires env.Valid()
    ensures TokenAt(toks, i + 1) == Empty ==> FrameRun(env, toks, i, f) == Step(i + 1, f, None)
    ensures TokenAt(toks, i + 1) == EndFrameToken ==> FrameRun(env, toks, i, f) == Step(i + 1, f, None)
  {
  }

  /** A sub-block error ends the loop with that error and the record as it was; a
      successful FRAME_MEASUREMENT replaces the previous one and an IF_DATA is appended. */
  lemma FrameSubBlocks(env: Env, toks: seq<string>, i: nat, f: FrameBlock)
    requires env.Valid()
    ensures var t := TokenAt(toks, i + 1); var r := FrameRun(env, toks, i, f);
      (t == FrameMeasurementToken ==> var s := env.sub(FrameMeasurement, toks, i + 1);
        if s.err.Some? then r == Step(s.next, f, s.err)
        else r == FrameRun(env, toks, s.next, f.(frameMeasurement := s.value)))
      && (t == BeginIfDataToken ==> var s := env.sub(IfData, toks, i + 1);
        if s.err.Some? then r == Step(s.next, f, s.err)
        else r == FrameRun(env, toks, s.next, f.(ifData := f.ifData + [s.value])))
  {
  }

  method ParseFrame(env: Env, cur: Cursor) returns (f: FrameBlock, err: Option<Error>)
    requires env.Valid()
    modifies cur
    ensures Step(cur.index, f, err) == FrameRun(env, cur.toks, old(cur.index), ZeroFrame)
  {
    f := ZeroFrame;
    err := None;
    while true
      invariant FrameRun(env, cur.toks, old(cur.index), ZeroFrame) == FrameRun(env, cur.toks, cur.index, f)
      invariant err == None
      decreases |cur.toks| - cur.index
    {
      var t := cur.Next();
      if t == FrameMeasurementToken {
        var buf;
        buf, err := ParseSub(env, cur, FrameMeasurement);
        if err.Some? {
          break;
        }
        f := f.(frameMeasurement := buf);
      } else if t == BeginIfDataToken {
        var buf;
        buf, err := ParseSub(env, cur, IfData);
        if err.Some? {
          break;
        }
        f := f.(ifData := f.ifData + [buf]);
      } else if t == Empty {
        break;
      } else if t == EndFrameToken {
        break;
      } else if !f.nameSet {
        f := f.(name := t);
      } else if !f.longIdentifierSet {
        f := f.(longIdentifier := t);
      } else if !f.scalingUnitSet {
        var buf := ParseUint(t, 16);
        if buf.IntErr? {
          err := Some(NumError("ParseUint", t, buf.kind));
          break;
        }
        MaxUintValues();
        f := f.(scalingUnit := buf.value);
      } else if !f.rateSet {
        var buf := ParseUint(t, 32);
        if buf.IntErr? {
          err := Some(NumError("ParseUint", t, buf.kind));
          break;
        }
        f := f.(rate := buf.value);
      }
    }
  }
}
