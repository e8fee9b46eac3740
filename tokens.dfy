/** The shared token cursor and the error values every parser returns.

    The tokenizer itself (`tokenGenerator`, the global `tokenList`, `emptyToken`)
    is not part of this model. What the parsers rely on is stated here:
    a token sequence fixed once, a cursor index into it, `Next()` advancing the
    index by one and returning the token there, and a sentinel `Empty` returned
    for every index past the end of the sequence. */
module Tokens {

  datatype Option<+T> = None | Some(value: T)

  /** The sentinel that `next()` and `current()` return past the end of input. */
  const Empty: string := ""

  /** The token at index `i`, or `Empty` when `i` is past the end. */
  function TokenAt(toks: seq<string>, i: nat): (t: string)
    ensures i < |toks| ==> t == toks[i]
    ensures i >= |toks| ==> t == Empty
  {
    if i < |toks| then toks[i] else Empty
  }

  /** Classification of a failed `strconv` integer parse. */
  datatype NumErrKind = Syntax | Range

  /** The text of `strconv.ErrSyntax` and `strconv.ErrRange`. */
  function KindText(k: NumErrKind): string {
    if k == Syntax then "invalid syntax" else "value out of range"
  }

  /* The model of `strconv.Quote`, by which every `*strconv.NumError` message shows the
     text it failed on. Each character is written as itself, except that a double quote
     and a backslash get a backslash before them, the seven C control characters get their
     letter escapes (`\a`, `\b`, `\f`, `\n`, `\r`, `\t`, `\v`) and every other ASCII control
     character (and DEL) becomes `\x` with two lower-case hex digits. `Unescape` reads such
     text back and shows that nothing is lost. */

  const HexDigits: string := "0123456789abcdef"

  /** The letter of a C control escape (`\a` ... `\v`) for code `n`, or `None`. */
  function LetterEscape(n: int): (l: Option<char>)
    ensures l.Some? ==> LetterCode(l.value) == Some(n)
  {
    if n == 7 then Some('a')
    else if n == 8 then Some('b')
    else if n == 12 then Some('f')
    else if n == 10 then Some('n')
    else if n == 13 then Some('r')
    else if n == 9 then Some('t')
    else if n == 11 then Some('v')
    else None
  }

  /** The inverse of `LetterEscape`. */
  function LetterCode(l: char): (n: Option<int>)
    ensures n.Some? ==> 7 <= n.value <= 13 && l != 'x' && l != '"' && l != '\\'
  {
    if l == 'a' then Some(7)
    else if l == 'b' then Some(8)
    else if l == 'f' then Some(12)
    else if l == 'n' then Some(10)
    else if l == 'r' then Some(13)
    else if l == 't' then Some(9)
    else if l == 'v' then Some(11)
    else None
  }

  /** A character `strconv.Quote` writes as a `\x` escape. */
  predicate HexEscaped(c: char) {
    ((c as int) < 0x20 || c as int == 0x7F) && LetterEscape(c as int).None?
  }

  /** A character `strconv.Quote` writes unchanged. */
  predicate Plain(c: char) {
    c != '"' && c != '\\' && 0x20 <= c as int && c as int != 0x7F
  }

  /** The value of a lower-case hex digit, or `None`. */
  function HexValue(h: char): (v: Option<nat>)
    ensures v.Some? ==> v.value < 16 && HexDigits[v.value] == h
  {
    if '0' <= h <= '9' then Some(h as int - '0' as int)
    else if 'a' <= h <= 'f' then Some(h as int - 'a' as int + 10)
    else None
  }

  /** How one character is written inside the quotes. */
  function EscapeChar(c: char): (e: string)
    ensures Plain(c) ==> e == [c]
    ensures !Plain(c) ==> |e| >= 2 && e[0] == '\\'
  {
    if c == '"' || c == '\\' then ['\\', c]
    else if LetterEscape(c as int).Some? then ['\\', LetterEscape(c as int).value]
    else if HexEscaped(c) then ['\\', 'x', HexDigits[c as int / 16], HexDigits[c as int % 16]]
    else [c]
  }

  /** The text between the quotes. */
  function Escaped(s: string): string {
    if s == [] then [] else EscapeChar(s[0]) + Escaped(s[1..])
  }

  /** `strconv.Quote(s)`. */
  function Quote(s: string): (q: string)
    ensures |q| >= 2 && q[0] == '"' && q[|q| - 1] == '"'
  {
    "\"" + Escaped(s) + "\""
  }

  /** Reads escaped text back; `None` when it holds a bare double quote or a malformed escape. */
  function Unescape(e: string): Option<string> {
    if e == [] then Some([])
    else if e[0] == '"' then None
    else if e[0] != '\\' then
      match Unescape(e[1..])
      case None => None
      case Some(rest) => Some([e[0]] + rest)
    else if |e| < 2 then None
    else
      match DecodeEscape(e)
      case None => None
      case Some((c, n)) =>
        match Unescape(e[n..])
        case None => None
        case Some(rest) => Some([c] + rest)
  }

  /** The character an escape at the start of `e` denotes, and the escape's length. */
  function DecodeEscape(e: string): (d: Option<(char, nat)>)
    requires |e| >= 2 && e[0] == '\\'
    ensures d.Some? ==> 2 <= d.value.1 <= |e|
  {
    if e[1] == '"' || e[1] == '\\' then Some((e[1], 2))
    else if LetterCode(e[1]).Some? then Some((LetterCode(e[1]).value as char, 2))
    else if e[1] == 'x' && |e| >= 4 && HexValue(e[2]).Some? && HexValue(e[3]).Some? then
      var n := HexValue(e[2]).value * 16 + HexValue(e[3]).value;
      if n < 0x20 || n == 0x7F then Some((n as char, 4)) else None
    else None
  }

  /** Unquoting a quoted string: `None` unless it is delimited by double quotes and well escaped. */
  function Unquote(q: string): Option<string> {
    if |q| < 2 || q[0] != '"' || q[|q| - 1] != '"' then None
    else Unescape(q[1..|q| - 1])
  }

  /** Decoding one escaped character in front of more escaped text. */
  lemma UnescapeStep(c: char, t: string)
    ensures Unescape(EscapeChar(c) + t) ==
      match Unescape(t)
      case None => None
      case Some(rest) => Some([c] + rest)
  {
    var e := EscapeChar(c);
    assert (e + t)[|e|..] == t;
    if !Plain(c) && !(c == '"' || c == '\\') && LetterEscape(c as int).None? {
      var h := HexDigits[c as int / 16];
      var l := HexDigits[c as int % 16];
      assert HexValue(h) == Some(c as int / 16);
      assert HexValue(l) == Some(c as int % 16);
      assert (e + t)[..4] == e;
    }
  }

  /** Nothing is lost: the quoted text reads back as the original string. */
  lemma {:induction false} UnescapeEscaped(s: string)
    ensures Unescape(Escaped(s)) == Some(s)
  {
    if s != [] {
      UnescapeEscaped(s[1..]);
      UnescapeStep(s[0], Escaped(s[1..]));
      assert [s[0]] + s[1..] == s;
    }
  }

  /** `Quote` and `Unquote` round-trip. */
  lemma QuoteRoundTrip(s: string)
    ensures Unquote(Quote(s)) == Some(s)
  {
    var q := Quote(s);
    assert q[1..|q| - 1] == Escaped(s);
    UnescapeEscaped(s);
  }

  /** A string of plain characters is quoted verbatim between the two double quotes. */
  lemma {:induction false} QuotePlain(s: string)
    requires forall i :: 0 <= i < |s| ==> Plain(s[i])
    ensures Quote(s) == "\"" + s + "\""
  {
    PlainEscaped(s);
  }

  lemma {:induction false} PlainEscaped(s: string)
    requires forall i :: 0 <= i < |s| ==> Plain(s[i])
    ensures Escaped(s) == s
  {
    if s != [] {
      PlainEscaped(s[1..]);
      assert [s[0]] + s[1..] == s;
    }
  }
  /** Every error the modelled code creates, plus `Foreign` for errors that
      arrive unchanged from a collaborator outside this model. */
  datatype Error =
    | UnexpectedEof
    | UnexpectedToken(token: string)
    | NumError(func: string, num: string, kind: NumErrKind)
    | FloatError(num: string, kind: NumErrKind)
    | PositionTwice(layout: string, earlier: string, later: string)
    | DatatypeNotSet(operator: string)
    | NoEndModule
    | Foreign(msg: string)
  {
    /** The text `err.Error()` yields in the source (see `Quote` for how far the quoting is modelled). */
    function Message(): string {
      match this
      case UnexpectedEof => "unexpected end of file"
      case UnexpectedToken(t) => "unexpected token " + t
      case NumError(f, s, k) => "strconv." + f + ": parsing " + Quote(s) + ": " + KindText(k)
      case FloatError(s, k) => "strconv.ParseFloat: parsing " + Quote(s) + ": " + KindText(k)
      case PositionTwice(l, a, b) => "position set twice in RecordLayout " + l + " for " + a + " and " + b
      case DatatypeNotSet(op) => op + " datatype not set"
      case NoEndModule => "no '/end module' token found"
      case Foreign(m) => m
    }
  }

  /** A cursor over the token sequence: the model of `tokenGenerator`. */
  class Cursor {
    const toks: seq<string>
    var index: nat

    constructor (toks: seq<string>, index: nat)
      ensures this.toks == toks && this.index == index
    {
      this.toks := toks;
      this.index := index;
    }

    /** `current()`: the token under the cursor. */
    function Current(): (t: string)
      reads this
      ensures t == TokenAt(toks, index)
    {
      if index < |toks| then toks[index] else Empty
    }

    /** `next()`: advance by one and return the token now under the cursor. */
    method Next() returns (t: string)
      modifies this
      ensures index == old(index) + 1
      ensures t == TokenAt(toks, index) && t == Current()
    {
      index := index + 1;
      t := Current();
    }
  }
}
