/** SYMBOL_LINK: a symbol name, then a signed 32-bit decimal offset. */
module SymbolLinks {
  import opened Tokens
  import opened Collaborators
  import opened Numbers

  /** `offset` holds an int32 (`Int32Min <= offset <= Int32Max` whenever it was parsed). */
  datatype SymbolLink = SymbolLink(symbolName: string, symbolNameSet: bool, offset: int, offsetSet: bool)

  const ZeroSymbolLink := SymbolLink("", false, 0, false)

  /** The loop of `parseSymbolLink` from cursor index `i` with the record built so far. */
  function SymbolLinkRun(env: Env, toks: seq<string>, i: nat, sl: SymbolLink): (r: Step<SymbolLink>)
    ensures r.next > i
    ensures r.value.offsetSet && !sl.offsetSet ==> r.err == None && Int32Min <= r.value.offset <= Int32Max
    decreases |toks| - i
  {
    var t := TokenAt(toks, i + 1);
    if t == Empty then Step(i + 1, sl, Some(UnexpectedEof))
    else if env.isKeyword(t) then Step(i + 1, sl, Some(UnexpectedToken(t)))
    else if !sl.symbolNameSet then SymbolLinkRun(env, toks, i + 1, sl.(symbolName := t, symbolNameSet := true))
    else if !sl.offsetSet then
      match ParseInt32(t)
      case IntErr(k) => Step(i + 1, sl, Some(NumError("ParseInt", t, k)))
      case IntOk(v) => Step(i + 1, sl.(offset := v, offsetSet := true), None)
    else SymbolLinkRun(env, toks, i + 1, sl)
  }

  /** From the start of a SYMBOL_LINK: it succeeds exactly when the next two tokens are
      literals and the second is an int32 in decimal; then exactly those two tokens are
      consumed, the first is the name and the second gives the offset. */
  lemma SymbolLinkSuccess(env: Env, toks: seq<string>, i: nat)
    ensures var r := SymbolLinkRun(env, toks, i, ZeroSymbolLink);
      var t1 := TokenAt(toks, i + 1); var t2 := TokenAt(toks, i + 2);
      (r.err == None <==>
        t1 != Empty && !env.isKeyword(t1) && t2 != Empty && !env.isKeyword(t2) && ParseInt32(t2).IntOk?)
      && (r.err == None ==>
        r.next == i + 2 && r.value.symbolNameSet && r.value.symbolName == t1
        && r.value.offsetSet && r.value.offset == ParseInt32(t2).value
        && Int32Min <= r.value.offset <= Int32Max)
  {
    var t1 := TokenAt(toks, i + 1);
    if t1 != Empty && !env.isKeyword(t1) {
      assert SymbolLinkRun(env, toks, i, ZeroSymbolLink)
        == SymbolLinkRun(env, toks, i + 1, ZeroSymbolLink.(symbolName := t1, symbolNameSet := true));
    }
  }

  /** The failure cases, in the order the source tests them; `offsetSet` is true
      exactly when there is no error. */
  lemma SymbolLinkErrors(env: Env, toks: seq<string>, i: nat)
    ensures var r := SymbolLinkRun(env, toks, i, ZeroSymbolLink);
      var t1 := TokenAt(toks, i + 1); var t2 := TokenAt(toks, i + 2);
      (r.value.offsetSet <==> r.err == None)
      && (t1 == Empty ==> r.err == Some(UnexpectedEof))
      && (t1 != Empty && env.isKeyword(t1) ==> r.err == Some(UnexpectedToken(t1)))
      && (t1 != Empty && !env.isKeyword(t1) ==>
            (t2 == Empty ==> r.err == Some(UnexpectedEof))
            && (t2 != Empty && env.isKeyword(t2) ==> r.err == Some(UnexpectedToken(t2)))
            && (t2 != Empty && !env.isKeyword(t2) && ParseInt32(t2).IntErr? ==>
                  r.err == Some(NumError("ParseInt", t2, ParseInt32(t2).kind))))
  {
    var t1 := TokenAt(toks, i + 1);
    if t1 != Empty && !env.isKeyword(t1) {
      assert SymbolLinkRun(env, toks, i, ZeroSymbolLink)
        == SymbolLinkRun(env, toks, i + 1, ZeroSymbolLink.(symbolName := t1, symbolNameSet := true));
    }
  }

  /** The text a bad offset token `t2` produces: the `ParseInt` error on `t2` as `strconv.Quote`
      writes it. */
  lemma SymbolLinkOffsetMessage(env: Env, toks: seq<string>, i: nat)
    requires var t1 := TokenAt(toks, i + 1); var t2 := TokenAt(toks, i + 2);
      t1 != Empty && !env.isKeyword(t1) && t2 != Empty && !env.isKeyword(t2) && ParseInt32(t2).IntErr?
    ensures var r := SymbolLinkRun(env, toks, i, ZeroSymbolLink); var t2 := TokenAt(toks, i + 2);
      r.err.Some? && r.err.value.Message() == "strconv.ParseInt: parsing " + Quote(t2) + ": " + KindText(ParseInt32(t2).kind)
  {
    SymbolLinkErrors(env, toks, i);
    assert "strconv." + "ParseInt" + ": parsing " == "strconv.ParseInt: parsing ";
  }

  /** For a token of plain characters that text holds the token itself between double quotes. */
  lemma SymbolLinkOffsetMessagePlain(env: Env, toks: seq<string>, i: nat)
    requires var t1 := TokenAt(toks, i + 1); var t2 := TokenAt(toks, i + 2);
      t1 != Empty && !env.isKeyword(t1) && t2 != Empty && !env.isKeyword(t2) && ParseInt32(t2).IntErr?
      && forall j :: 0 <= j < |t2| ==> Plain(t2[j])
    ensures var r := SymbolLinkRun(env, toks, i, ZeroSymbolLink); var t2 := TokenAt(toks, i + 2);
      r.err.Some? && r.err.value.Message() == "strconv.ParseInt: parsing " + ("\"" + t2 + "\"") + ": " + KindText(ParseInt32(t2).kind)
  {
    var t2 := TokenAt(toks, i + 2);
    SymbolLinkOffsetMessage(env, toks, i);
    QuotePlain(t2);
  }

  method ParseSymbolLink(env: Env, cur: Cursor) returns (sl: SymbolLink, err: Option<Error>)
    modifies cur
    ensures Step(cur.index, sl, err) == SymbolLinkRun(env, cur.toks, old(cur.index), ZeroSymbolLink)
  {
    sl := ZeroSymbolLink;
    err := None;
    while true
      invariant SymbolLinkRun(env, cur.toks, old(cur.index), ZeroSymbolLink) == SymbolLinkRun(env, cur.toks, cur.index, sl)
      decreases |cur.toks| - cur.index
    {
      var t := cur.Next();
      if t == Empty {
        err := Some(UnexpectedEof);
        break;
      } else if env.isKeyword(t) {
        err := Some(UnexpectedToken(t));
        break;
      } else if !sl.symbolNameSet {
        sl := sl.(symbolName := t, symbolNameSet := true);
      } else if !sl.offsetSet {
        var buf := ParseInt32(t);
        if buf.IntErr? {
          err := Some(NumError("ParseInt", t, buf.kind));
          break;
        }
        sl := sl.(offset := buf.value, offsetSet := true);
        break;
      }
    }
  }
}
