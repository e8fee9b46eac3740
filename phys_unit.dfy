/** PHYS_UNIT: one literal token naming the physical unit of a record. */
module PhysUnits {
  import opened Tokens
  import opened Collaborators

  datatype PhysUnit = PhysUnit(unit: string, unitSet: bool)

  const ZeroPhysUnit := PhysUnit("", false)

  /** What `parsePhysUnit` does with the cursor at `i`: it reads exactly one
      token, fails on end of input or on a keyword, and otherwise keeps the token. */
  function PhysUnitOf(env: Env, toks: seq<string>, i: nat): (r: Step<PhysUnit>)
    ensures r.next == i + 1
    ensures r.value.unitSet <==> r.err == None
    ensures r.err == None ==> r.value.unit == TokenAt(toks, i + 1)
  {
    var t := TokenAt(toks, i + 1);
    if t == Empty then Step(i + 1, ZeroPhysUnit, Some(UnexpectedEof))
    else if env.isKeyword(t) then Step(i + 1, ZeroPhysUnit, Some(UnexpectedToken(t)))
    else Step(i + 1, PhysUnit(t, true), None)
  }

  /** The error cases: end of input, then a keyword, each leaving the unit unset. */
  lemma PhysUnitErrors(env: Env, toks: seq<string>, i: nat)
    ensures var r := PhysUnitOf(env, toks, i); var t := TokenAt(toks, i + 1);
      (t == Empty ==> r.err == Some(UnexpectedEof) && !r.value.unitSet)
      && (t != Empty && env.isKeyword(t) ==> r.err == Some(UnexpectedToken(t)) && !r.value.unitSet)
      && (t != Empty && !env.isKeyword(t) ==> r.err == None)
  {
  }

  method ParsePhysUnit(env: Env, cur: Cursor) returns (pu: PhysUnit, err: Option<Error>)
    modifies cur
    ensures Step(cur.index, pu, err) == PhysUnitOf(env, cur.toks, old(cur.index))
  {
    pu := ZeroPhysUnit;
    err := None;
    var t := cur.Next();
    if t == Empty {
      err := Some(UnexpectedEof);
    } else if env.isKeyword(t) {
      err := Some(UnexpectedToken(t));
    } else if !pu.unitSet {
      pu := PhysUnit(t, true);
    }
  }
}
