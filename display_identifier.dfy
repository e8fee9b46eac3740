/** DISPLAY_IDENTIFIER: one literal token naming the display of a record. */
module DisplayIdentifiers {
  import opened Tokens
  import opened Collaborators

  datatype DisplayIdentifier = DisplayIdentifier(displayName: string, displayNameSet: bool)

  const ZeroDisplayIdentifier := DisplayIdentifier("", false)

  /** What `parseDisplayIdentifier` does with the cursor at `i`: it reads exactly one
      token, fails on end of input or on a keyword, and otherwise keeps the token. */
  function DisplayIdentifierOf(env: Env, toks: seq<string>, i: nat): (r: Step<DisplayIdentifier>)
    ensures r.next == i + 1
    ensures r.value.displayNameSet <==> r.err == None
    ensures r.err == None ==> r.value.displayName == TokenAt(toks, i + 1)
  {
    var t := TokenAt(toks, i + 1);
    if t == Empty then Step(i + 1, ZeroDisplayIdentifier, Some(UnexpectedEof))
    else if env.isKeyword(t) then Step(i + 1, ZeroDisplayIdentifier, Some(UnexpectedToken(t)))
    else Step(i + 1, DisplayIdentifier(t, true), None)
  }

  /** The error cases: end of input, then a keyword, each leaving the name unset. */
  lemma DisplayIdentifierErrors(env: Env, toks: seq<string>, i: nat)
    ensures var r := DisplayIdentifierOf(env, toks, i); var t := TokenAt(toks, i + 1);
      (t == Empty ==> r.err == Some(UnexpectedEof) && !r.value.displayNameSet)
      && (t != Empty && env.isKeyword(t) ==> r.err == Some(UnexpectedToken(t)) && !r.value.displayNameSet)
      && (t != Empty && !env.isKeyword(t) ==> r.err == None)
  {
  }

  method ParseDisplayIdentifier(env: Env, cur: Cursor) returns (di: DisplayIdentifier, err: Option<Error>)
    modifies cur
    ensures Step(cur.index, di, err) == DisplayIdentifierOf(env, cur.toks, old(cur.index))
  {
    di := ZeroDisplayIdentifier;
    err := None;
    var t := cur.Next();
    if t == Empty {
      err := Some(UnexpectedEof);
    } else if env.isKeyword(t) {
      err := Some(UnexpectedToken(t));
    } else if !di.displayNameSet {
      di := DisplayIdentifier(t, true);
    }
  }
}
