/** MODULE: the sequential `parseModule` and the parts of `parseModuleMultithreaded`
    that are not concurrency (the header loop, the `/end MODULE` search, the shard
    layout, one shard worker and the merge of the workers' results).

    The records of the modelled block parsers (CHARACTERISTIC, MEASUREMENT,
    RECORD_LAYOUT, FRAME) are parsed by their models; every other MODULE sub-block
    is an unmodelled collaborator returning a `SubRecord` that carries the name it is
    filed under. */
module Modules {
  import opened Tokens
  import opened Collaborators
  import opened Keywords
  import opened Characteristics
  import opened Measurements
  import opened RecordLayouts
  import opened Frames
  import opened Sharding
  import opened Workers

  /** The parsed MODULE. The name-keyed maps of the unmodelled record kinds
      (`AxisPts`, `CompuMethods`, `Units`, `userRights`, ...) are `keyed[kind]`; the
      unmodelled singletons (`a2ml`, `ModCommon`, `ModPar`, `variantCoding`) are
      `singles[kind]`; `errors` is what the shard workers reported. */
  datatype Module = Module(
    name: Slot<string>,
    longIdentifier: Slot<string>,
    characteristics: map<string, Characteristic>,
    measurements: map<string, Measurement>,
    recordLayouts: map<string, RecordLayout>,
    frame: FrameBlock,
    keyed: map<SubKind, map<string, SubRecord>>,
    singles: map<SubKind, SubRecord>,
    errors: seq<Error>)

  const ZeroModule := Module(Slot("", false), Slot("", false), map[], map[], map[], ZeroFrame, map[], map[], [])

  /** The name-keyed map of kind `k` (empty when nothing of that kind was stored). */
  function KeyedOf(keyed: map<SubKind, map<string, SubRecord>>, k: SubKind): map<string, SubRecord> {
    if k in keyed then keyed[k] else map[]
  }

  /** What one MODULE sub-parser produced. */
  datatype Record =
    | CharacteristicRecord(c: Characteristic)
    | MeasurementRecord(ms: Measurement)
    | RecordLayoutRecord(rl: RecordLayout)
    | FrameRecord(f: FrameBlock)
    | KeyedRecord(kind: SubKind, rec: SubRecord)
    | SingleRecord(kind: SubKind, rec: SubRecord)

  /** Where a record is filed: one of the name-keyed maps, or a singleton field. */
  datatype Place =
    | CharacteristicPlace | MeasurementPlace | RecordLayoutPlace | FramePlace
    | KeyedPlace(kind: SubKind) | SinglePlace(kind: SubKind)

  function PlaceOf(r: Record): Place {
    match r
    case CharacteristicRecord(_) => CharacteristicPlace
    case MeasurementRecord(_) => MeasurementPlace
    case RecordLayoutRecord(_) => RecordLayoutPlace
    case FrameRecord(_) => FramePlace
    case KeyedRecord(k, _) => KeyedPlace(k)
    case SingleRecord(k, _) => SinglePlace(k)
  }

  /** The key a record is filed under: its name, or "" for a singleton. */
  function NameOf(r: Record): string {
    match r
    case CharacteristicRecord(c) => c.name.value
    case MeasurementRecord(ms) => ms.name.value
    case RecordLayoutRecord(rl) => rl.name.value
    case FrameRecord(_) => ""
    case KeyedRecord(_, v) => v.name
    case SingleRecord(_, _) => ""
  }

  /** The record a module holds at place `p` under key `n`, if any. */
  function Find(m: Module, p: Place, n: string): Option<Record> {
    match p
    case CharacteristicPlace =>
      if n in m.characteristics then Some(CharacteristicRecord(m.characteristics[n])) else None
    case MeasurementPlace =>
      if n in m.measurements then Some(MeasurementRecord(m.measurements[n])) else None
    case RecordLayoutPlace =>
      if n in m.recordLayouts then Some(RecordLayoutRecord(m.recordLayouts[n])) else None
    case FramePlace =>
      if n == "" then Some(FrameRecord(m.frame)) else None
    case KeyedPlace(k) =>
      if n in KeyedOf(m.keyed, k) then Some(KeyedRecord(k, KeyedOf(m.keyed, k)[n])) else None
    case SinglePlace(k) =>
      if n == "" then Some(SingleRecord(k, SingleOf(m.singles, k))) else None
  }

  /** Storing a record (`myModule.Characteristics[buf.Name] = buf`, `myModule.frame = ...`):
      afterwards the module holds exactly that record at its place and key, replacing
      any earlier one; every other place and key, the header and the errors are as
      before. */
  function Store(m: Module, r: Record): (d: Module)
    ensures Find(d, PlaceOf(r), NameOf(r)) == Some(r)
    ensures forall p, n :: (p != PlaceOf(r) || n != NameOf(r)) ==> Find(d, p, n) == Find(m, p, n)
    ensures d.name == m.name && d.longIdentifier == m.longIdentifier && d.errors == m.errors
  {
    match r
    case CharacteristicRecord(c) => m.(characteristics := m.characteristics[c.name.value := c])
    case MeasurementRecord(ms) => m.(measurements := m.measurements[ms.name.value := ms])
    case RecordLayoutRecord(rl) => m.(recordLayouts := m.recordLayouts[rl.name.value := rl])
    case FrameRecord(f) => m.(frame := f)
    case KeyedRecord(k, v) => m.(keyed := m.keyed[k := KeyedOf(m.keyed, k)[v.name := v]])
    case SingleRecord(k, v) => m.(singles := m.singles[k := v])
  }

  /** How the MODULE `switch` treats a sub-block keyword. */
  datatype ModuleEntry =
    | ToCharacteristic | ToMeasurement | ToRecordLayout | ToFrame
    | Keyed(kind: SubKind)    // stored under its name, only when it parses
    | Single(kind: SubKind)   // assigned from its parser, even when that fails

  /** The sub-block a MODULE keyword opens, if any. */
  function ModuleEntryOf(t: string): (e: Option<ModuleEntry>)
    ensures e.Some? ==> t != Empty && t != EndModuleToken
  {
    if t == BeginA2mlToken then Some(Single(A2ml))
    else if t == BeginAxisPtsToken then Some(Keyed(AxisPts))
    else if t == BeginBlobToken then Some(Keyed(Blob))
    else if t == BeginCharacteristicToken then Some(ToCharacteristic)
    else if t == BeginCompuMethodToken then Some(Keyed(CompuMethod))
    else if t == BeginCompuTabToken then Some(Keyed(CompuTab))
    else if t == BeginCompuVtabToken then Some(Keyed(CompuVtab))
    else if t == BeginCompuVtabRangeToken then Some(Keyed(CompuVtabRange))
    else if t == BeginFrameToken then Some(ToFrame)
    else if t == BeginFunctionToken then Some(Keyed(Function))
    else if t == BeginGroupToken then Some(Keyed(Group))
    else if t == BeginIfDataToken then Some(Keyed(IfData))
    else if t == BeginInstanceToken then Some(Keyed(Instance))
    else if t == BeginMeasurementToken then Some(ToMeasurement)
    else if t == BeginModCommonToken then Some(Single(ModCommon))
    else if t == BeginModParToken then Some(Single(ModPar))
    else if t == BeginRecordLayoutToken then Some(ToRecordLayout)
    else if t == BeginTransformerToken then Some(Keyed(Transformer))
    else if t == BeginTypeDefAxisToken then Some(Keyed(TypeDefAxis))
    else if t == BeginTypeDefBlobToken then Some(Keyed(TypeDefBlob))
    else if t == BeginTypeDefCharacteristicToken then Some(Keyed(TypeDefCharacteristic))
    else if t == BeginTypeDefMeasurementToken then Some(Keyed(TypeDefMeasurement))
    else if t == BeginTypeDefStructureToken then Some(Keyed(TypeDefStructure))
    else if t == BeginUnitToken then Some(Keyed(Unit))
    else if t == BeginUserRightsToken then Some(Keyed(UserRights))
    else if t == BeginVariantCodingToken then Some(Single(VariantCoding))
    else None
  }

  /** The sub-parser a MODULE keyword calls, on the cursor at `at`: the record it built,
      where it left the cursor and its error. */
  function SubParse(env: Env, toks: seq<string>, at: nat, e: ModuleEntry): (r: Step<Record>)
    requires env.Valid()
    ensures r.next >= at
  {
    match e
    case ToCharacteristic =>
      var s := CharacteristicRun(env, toks, at, ZeroCharacteristic);
      Step(s.next, CharacteristicRecord(s.value), s.err)
    case ToMeasurement =>
      var s := MeasurementRun(env, toks, at, ZeroMeasurement);
      Step(s.next, MeasurementRecord(s.value), s.err)
    case ToRecordLayout =>
      var s := RecordLayoutRun(env, toks, at, ZeroRecordLayout);
      Step(s.next, RecordLayoutRecord(s.value), s.err)
    case ToFrame =>
      var s := FrameRun(env, toks, at, ZeroFrame);
      Step(s.next, FrameRecord(s.value), s.err)
    case Keyed(k) =>
      var s := env.sub(k, toks, at);
      Step(s.next, KeyedRecord(k, s.value), s.err)
    case Single(k) =>
      var s := env.sub(k, toks, at);
      Step(s.next, SingleRecord(k, s.value), s.err)
  }

  /** A table branch of the sequential `switch`: the record is stored when it parses; a
      singleton (FRAME and the `Single` kinds) is assigned even when its parser fails;
      a failure ends the loop. */
  function ModuleSub(env: Env, toks: seq<string>, at: nat, m: Module, e: ModuleEntry): (r: Turn<Module>)
    requires env.Valid()
    ensures r.next >= at
    ensures r.value.name == m.name && r.value.longIdentifier == m.longIdentifier && r.value.errors == m.errors
    ensures r.Stop? ==> r.err.Some?
  {
    var s := SubParse(env, toks, at, e);
    if e.ToFrame? || e.Single? then Outcome(s.next, Store(m, s.value), s.err)
    else if s.err.Some? then Stop(s.next, m, s.err)
    else Continue(s.next, Store(m, s.value))
  }

  /** The positional part of the default branch: the literal `t` becomes the name, then
      the long identifier; later literals are ignored. */
  function ModuleLiteral(t: string, m: Module): Module {
    if !m.name.isSet then m.(name := Slot(t, true))
    else if !m.longIdentifier.isSet then m.(longIdentifier := Slot(t, true))
    else m
  }

  /** One turn of the sequential loop: `tok.next()`, then the `switch`. */
  function ModuleTurn(env: Env, toks: seq<string>, i: nat, m: Module): (r: Turn<Module>)
    requires env.Valid()
    ensures r.next > i
    ensures r.Continue? ==> i + 1 < |toks|
    ensures KeptSlot(m.name, r.value.name) && KeptSlot(m.longIdentifier, r.value.longIdentifier)
    ensures r.value.errors == m.errors
    ensures r.Stop? && r.err == None ==> TokenAt(toks, i + 1) == EndModuleToken && r.next == i + 1
  {
    var t := TokenAt(toks, i + 1);
    match ModuleEntryOf(t)
    case Some(e) => ModuleSub(env, toks, i + 1, m, e)
    case None =>
      if t == Empty then Stop(i + 1, m, Some(UnexpectedEof))
      else if t == EndModuleToken then Stop(i + 1, m, None)
      else if env.isKeyword(t) then Stop(i + 1, m, Some(UnexpectedToken(t)))
      else Continue(i + 1, ModuleLiteral(t, m))
  }

  /** The whole sequential loop from cursor index `i`: what `parseModule` returns and
      where it leaves the cursor. A set header slot keeps its value and success means
      the cursor is on `/end MODULE`. */
  function ModuleRun(env: Env, toks: seq<string>, i: nat, m: Module): (r: Step<Module>)
    requires env.Valid()
    ensures r.next > i
    ensures KeptSlot(m.name, r.value.name) && KeptSlot(m.longIdentifier, r.value.longIdentifier)
    ensures r.value.errors == m.errors
    ensures r.err == None ==> TokenAt(toks, r.next) == EndModuleToken
    decreases |toks| - i
  {
    match ModuleTurn(env, toks, i, m)
    case Stop(j, d, e) => Step(j, d, e)
    case Continue(j, d) => ModuleRun(env, toks, j, d)
  }

  /** Literals fill the name and then the long identifier, each flag set once; any later
      literal changes nothing. */
  lemma ModuleLiteralsFill(env: Env, toks: seq<string>, i: nat, m: Module)
    requires env.Valid()
    requires var t := TokenAt(toks, i + 1);
      ModuleEntryOf(t) == None && t != Empty && t != EndModuleToken && !env.isKeyword(t)
    ensures var t := TokenAt(toks, i + 1); var r := ModuleTurn(env, toks, i, m);
      r.Continue? && r.next == i + 1
      && (!m.name.isSet ==> r.value == m.(name := Slot(t, true)))
      && (m.name.isSet && !m.longIdentifier.isSet ==> r.value == m.(longIdentifier := Slot(t, true)))
      && (m.name.isSet && m.longIdentifier.isSet ==> r.value == m)
  {
  }

  /** The default branch: end of input is an error, `/end MODULE` ends the loop with no
      error, any other keyword that opens no sub-block is an error. */
  lemma ModuleDefault(env: Env, toks: seq<string>, i: nat, m: Module)
    requires env.Valid()
    ensures var t := TokenAt(toks, i + 1); var r := ModuleRun(env, toks, i, m);
      (t == Empty ==> r == Step(i + 1, m, Some(UnexpectedEof)))
      && (t == EndModuleToken ==> r == Step(i + 1, m, None))
      && (ModuleEntryOf(t) == None && t != Empty && t != EndModuleToken && env.isKeyword(t) ==>
            r == Step(i + 1, m, Some(UnexpectedToken(t))))
  {
  }

  /** A record that parses is stored under its name, replacing an earlier one of the same
      name; nothing else changes. The first sub-parser error ends the loop and the module
      built so far is returned with it (a singleton having been assigned first). */
  lemma ModuleSubBlock(env: Env, toks: seq<string>, i: nat, m: Module)
    requires env.Valid()
    requires ModuleEntryOf(TokenAt(toks, i + 1)).Some?
    ensures var e := ModuleEntryOf(TokenAt(toks, i + 1)).value; var s := SubParse(env, toks, i + 1, e);
      var r := ModuleRun(env, toks, i, m);
      (s.err.None? ==> r == ModuleRun(env, toks, s.next, Store(m, s.value)))
      && (s.err.Some? && (e.ToFrame? || e.Single?) ==> r == Step(s.next, Store(m, s.value), s.err))
      && (s.err.Some? && !(e.ToFrame? || e.Single?) ==> r == Step(s.next, m, s.err))
  {
  }

  /** The sub-parser calls of the MODULE `switch`, on the shared cursor. */
  method ParseRecord(env: Env, cur: Cursor, e: ModuleEntry) returns (rec: Record, err: Option<Error>)
    requires env.Valid()
    modifies cur
    ensures SubParse(env, cur.toks, old(cur.index), e) == Step(cur.index, rec, err)
  {
    match e {
      case ToCharacteristic =>
        var c;
        c, err := ParseCharacteristic(env, cur);
        rec := CharacteristicRecord(c);
      case ToMeasurement =>
        var ms;
        ms, err := ParseMeasurement(env, cur);
        rec := MeasurementRecord(ms);
      case ToRecordLayout =>
        var rl;
        rl, err := ParseRecordLayout(env, cur);
        rec := RecordLayoutRecord(rl);
      case ToFrame =>
        var f;
        f, err := ParseFrame(env, cur);
        rec := FrameRecord(f);
      case Keyed(k) =>
        var v;
        v, err := ParseSub(env, cur, k);
        rec := KeyedRecord(k, v);
      case Single(k) =>
        var v;
        v, err := ParseSub(env, cur, k);
        rec := SingleRecord(k, v);
    }
  }

  /** `parseModule`. */
  method ParseModule(env: Env, cur: Cursor) returns (m: Module, err: Option<Error>)
    requires env.Valid()
    modifies cur
    ensures Step(cur.index, m, err) == ModuleRun(env, cur.toks, old(cur.index), ZeroModule)
  {
    m := ZeroModule;
    err := None;
    while true
      invariant ModuleRun(env, cur.toks, old(cur.index), ZeroModule) == ModuleRun(env, cur.toks, cur.index, m)
      invariant err == None
      decreases |cur.toks| - cur.index
    {
      var t := cur.Next();
      var e := ModuleEntryOf(t);
      if e.Some? {
        var rec;
        rec, err := ParseRecord(env, cur, e.value);
        if e.value.ToFrame? || e.value.Single? || err.None? {
          m := Store(m, rec);
        }
        if err.Some? {
          break;
        }
      } else if t == Empty {
        err := Some(UnexpectedEof);
        break;
      } else if t == EndModuleToken {
        break;
      } else if env.isKeyword(t) {
        err := Some(UnexpectedToken(t));
        break;
      } else {
        m := ModuleLiteral(t, m);
      }
    }
  }

  // ---------------------------------------------------------------------------
  // parseModuleMultithreaded

  /** The header loop: the first literal after `/begin MODULE` becomes the name, the next
      the long identifier, and the loop ends there; end of input ends it with an error. */
  function HeaderRun(toks: seq<string>, i: nat, m: Module): (r: Step<Module>)
    ensures r.next > i
    ensures r.value.errors == m.errors
    decreases |toks| - i
  {
    var t := TokenAt(toks, i + 1);
    if t == Empty then Step(i + 1, m, Some(UnexpectedEof))
    else if !m.name.isSet then HeaderRun(toks, i + 1, m.(name := Slot(t, true)))
    else if !m.longIdentifier.isSet then Step(i + 1, m.(longIdentifier := Slot(t, true)), None)
    else HeaderRun(toks, i + 1, m)
  }

  /** From a fresh module the header takes exactly the next two tokens, whatever they
      are (keywords included), or fails with "unexpected end of file" on the sentinel. */
  lemma HeaderTakesTwo(toks: seq<string>, i: nat)
    ensures var r := HeaderRun(toks, i, ZeroModule); var a := TokenAt(toks, i + 1); var b := TokenAt(toks, i + 2);
      (r.err.None? <==> a != Empty && b != Empty)
      && (r.err.None? ==> r.next == i + 2 && r.value == ZeroModule.(name := Slot(a, true), longIdentifier := Slot(b, true)))
      && (r.err.Some? ==> r.err == Some(UnexpectedEof) && TokenAt(toks, r.next) == Empty)
  {
  }

  method ParseModuleHeader(cur: Cursor) returns (m: Module, err: Option<Error>)
    modifies cur
    ensures Step(cur.index, m, err) == HeaderRun(cur.toks, old(cur.index), ZeroModule)
  {
    m := ZeroModule;
    err := None;
    while true
      invariant HeaderRun(cur.toks, old(cur.index), ZeroModule) == HeaderRun(cur.toks, cur.index, m)
      decreases |cur.toks| - cur.index
    {
      var t := cur.Next();
      if t == Empty {
        err := Some(UnexpectedEof);
        break;
      } else if !m.name.isSet {
        m := m.(name := Slot(t, true));
      } else if !m.longIdentifier.isSet {
        m := m.(longIdentifier := Slot(t, true));
        break;
      }
    }
  }

  /** The lowest index from `k` on that holds `/end MODULE`, or 0 when there is none. */
  function LowestEndFrom(toks: seq<string>, k: nat): (e: nat)
    requires k <= |toks|
    ensures (exists j :: k <= j < |toks| && toks[j] == EndModuleToken) ==>
      k <= e < |toks| && toks[e] == EndModuleToken && forall j :: k <= j < e ==> toks[j] != EndModuleToken
    ensures (forall j :: k <= j < |toks| ==> toks[j] != EndModuleToken) ==> e == 0
    decreases |toks| - k
  {
    if k == |toks| then 0
    else if toks[k] == EndModuleToken then k
    else LowestEndFrom(toks, k + 1)
  }

  /** The `/end MODULE` search of `parseModuleMultithreaded`: it scans the whole token
      list downwards and keeps overwriting, so it finds the lowest matching index, or
      leaves `endIndex` at 0 when there is none. */
  method FindEndIndex(toks: seq<string>) returns (endIndex: nat)
    ensures endIndex == LowestEndFrom(toks, 0)
    ensures (exists j :: 0 <= j < |toks| && toks[j] == EndModuleToken) ==>
      endIndex < |toks| && toks[endIndex] == EndModuleToken
      && forall j :: 0 <= j < endIndex ==> toks[j] != EndModuleToken
    ensures (forall j :: 0 <= j < |toks| ==> toks[j] != EndModuleToken) ==> endIndex == 0
  {
    endIndex := 0;
    var i := |toks|;
    while i > 0
      invariant 0 <= i <= |toks|
      invariant endIndex == LowestEndFrom(toks, i)
    {
      i := i - 1;
      if toks[i] == EndModuleToken {
        endIndex := i;
      }
    }
  }

  /** The sub-block parsers of a MODULE worker's `switch`, as one function of the entry
      and the cursor index. */
  function ModuleParser(env: Env, toks: seq<string>): (ModuleEntry, nat) --> Step<Record> {
    (e: ModuleEntry, at: nat) requires env.Valid() => SubParse(env, toks, at, e)
  }

  /** `parseModuleMainLoop` from cursor index `i` with bound `max`, over the MODULE grammar. */
  function Worker(env: Env, toks: seq<string>, i: nat, max: int): (w: Work<Record>)
    requires env.Valid()
    ensures forall k :: 0 <= k < |w.visited| ==> i < w.visited[k] <= max
  {
    ModuleParserForward(env, toks);
    WorkerRun(toks, ModuleEntryOf, ModuleParser(env, toks), i, max)
  }

  /** The MODULE sub-block parsers never move the cursor back. */
  lemma ModuleParserForward(env: Env, toks: seq<string>)
    requires env.Valid()
    ensures Forward(ModuleParser(env, toks))
  {
    forall e, at ensures ModuleParser(env, toks).requires(e, at) && ModuleParser(env, toks)(e, at).next >= at {
      assert ModuleParser(env, toks)(e, at) == SubParse(env, toks, at, e);
    }
  }

  /** `parseModuleMainLoop` as one sequential worker on a cursor of its own; the records
      it sends and the error it reports are those of `Worker`. */
  method ParseModuleMainLoop(env: Env, toks: seq<string>, minIndex: nat, maxIndex: int)
    returns (records: seq<Record>, err: Option<Error>)
    requires env.Valid()
    ensures records == Worker(env, toks, minIndex, maxIndex).records
    ensures err == Worker(env, toks, minIndex, maxIndex).err
  {
    var tg := new Cursor(toks, minIndex);
    records, err := [], None;
    ModuleParserForward(env, toks);
    while true
      invariant tg.toks == toks
      invariant var w0 := Worker(env, toks, minIndex, maxIndex); var w := Worker(env, toks, tg.index, maxIndex);
        w0.records == records + w.records && w0.err == w.err
      invariant err == None
      decreases maxIndex - tg.index
    {
      if tg.index >= maxIndex {
        break;
      }
      ghost var before := tg.index;
      var t := tg.Next();
      var e := ModuleEntryOf(t);
      if e.Some? {
        var rec;
        rec, err := ParseRecord(env, tg, e.value);
        if err.Some? {
          break;
        }
        assert Worker(env, toks, before, maxIndex).records == [rec] + Worker(env, toks, tg.index, maxIndex).records;
        records := records + [rec];
      } else if t == Empty {
        err := Some(UnexpectedEof);
        break;
      } else if t == EndModuleToken {
        break;
      } else if tg.index >= maxIndex {
        break;
      }
    }
  }

  /** The collectors on one worker's output: its records stored in the order sent, its
      error appended to `errors`. */
  function StoreAll(m: Module, recs: seq<Record>): (d: Module)
    ensures d.name == m.name && d.longIdentifier == m.longIdentifier && d.errors == m.errors
  {
    if recs == [] then m else Store(StoreAll(m, recs[..|recs| - 1]), recs[|recs| - 1])
  }

  function Collected(m: Module, w: Work<Record>): (d: Module)
    ensures d.name == m.name && d.longIdentifier == m.longIdentifier
    ensures d.errors == m.errors + (if w.err.Some? then [w.err.value] else [])
  {
    var d := StoreAll(m, w.records);
    if w.err.Some? then d.(errors := d.errors + [w.err.value]) else d
  }

  /** The merge of all workers' output, taken in shard order. */
  function CollectAll(m: Module, ws: seq<Work<Record>>): (d: Module)
    ensures d.name == m.name && d.longIdentifier == m.longIdentifier
    ensures d.errors == m.errors + ErrorsOf(ws)
  {
    if ws == [] then m else Collected(CollectAll(m, ws[..|ws| - 1]), ws[|ws| - 1])
  }

  /** The workers of all shards of (start, end] under the intended layout, in shard order. */
  function ModuleShards(env: Env, toks: seq<string>, start: nat, end: nat, numProc: nat): (ws: seq<Work<Record>>)
    requires env.Valid() && start < end && 1 <= numProc
    ensures |ws| == numProc
    ensures forall j :: 0 <= j < numProc ==>
      ws[j] == Worker(env, toks, ShardBounds(start, end, numProc, j).0, ShardBounds(start, end, numProc, j).1)
  {
    ModuleParserForward(env, toks);
    Shards(toks, ModuleEntryOf, ModuleParser(env, toks), start, end, numProc, 0)
  }

  lemma CollectAllSnoc(m: Module, ws: seq<Work<Record>>, i: nat)
    requires i < |ws|
    ensures CollectAll(m, ws[..i + 1]) == Collected(CollectAll(m, ws[..i]), ws[i])
  {
    assert ws[..i + 1][..i] == ws[..i];
  }

  /** `parseModuleMultithreaded` from cursor index `i`, the workers run one after another
      and their output merged in shard order: the header, then the `/end MODULE` search
      ("no '/end module' token found" unless it lies beyond the header), then the shards;
      the cursor is left on `/end MODULE` and the error is the first one collected. */
  function ShardedModule(env: Env, toks: seq<string>, i: nat, numProc: nat): (r: Step<Module>)
    requires env.Valid() && 1 <= numProc
    ensures var h := HeaderRun(toks, i, ZeroModule); var end := LowestEndFrom(toks, 0);
      && r.value.name == h.value.name && r.value.longIdentifier == h.value.longIdentifier
      && (end <= h.next ==> r == Step(h.next, h.value, Some(NoEndModule)))
      && (end > h.next ==> r.next == end && toks[end] == EndModuleToken)
  {
    var h := HeaderRun(toks, i, ZeroModule);
    var end := LowestEndFrom(toks, 0);
    if end <= h.next then Step(h.next, h.value, Some(NoEndModule))
    else
      var m := CollectAll(h.value, ModuleShards(env, toks, h.next, end, numProc));
      Step(end, m, if |m.errors| > 0 then Some(m.errors[0]) else h.err)
  }

  /** A header that runs into the end of input ends in "no '/end module' token found"
      when no token is the sentinel itself: the cursor is then past every token, so no
      `/end MODULE` lies beyond it. */
  lemma HeaderEofNoEnd(env: Env, toks: seq<string>, i: nat, numProc: nat)
    requires env.Valid() && 1 <= numProc
    requires forall k :: 0 <= k < |toks| ==> toks[k] != Empty
    requires HeaderRun(toks, i, ZeroModule).err.Some?
    ensures ShardedModule(env, toks, i, numProc).err == Some(NoEndModule)
  {
    HeaderTakesTwo(toks, i);
  }

  /** When the `/end MODULE` lies beyond the header and no worker failed, the error is the
      header's own. */
  lemma ShardedNoError(env: Env, toks: seq<string>, i: nat, numProc: nat)
    requires env.Valid() && 1 <= numProc
    requires LowestEndFrom(toks, 0) > HeaderRun(toks, i, ZeroModule).next
    requires forall j :: 0 <= j < numProc ==>
      ModuleShards(env, toks, HeaderRun(toks, i, ZeroModule).next, LowestEndFrom(toks, 0), numProc)[j].err.None?
    ensures ShardedModule(env, toks, i, numProc).err == HeaderRun(toks, i, ZeroModule).err
  {
    var ws := ModuleShards(env, toks, HeaderRun(toks, i, ZeroModule).next, LowestEndFrom(toks, 0), numProc);
    NoErrors(ws);
  }

  /** When the `/end MODULE` lies beyond the header and worker `j` is the first, in shard
      order, that failed, the error is that worker's. */
  lemma ShardedFirstError(env: Env, toks: seq<string>, i: nat, numProc: nat, j: nat)
    requires env.Valid() && 1 <= numProc
    requires LowestEndFrom(toks, 0) > HeaderRun(toks, i, ZeroModule).next
    requires j < numProc
    requires ModuleShards(env, toks, HeaderRun(toks, i, ZeroModule).next, LowestEndFrom(toks, 0), numProc)[j].err.Some?
    requires forall k :: 0 <= k < j ==>
      ModuleShards(env, toks, HeaderRun(toks, i, ZeroModule).next, LowestEndFrom(toks, 0), numProc)[k].err.None?
    ensures ShardedModule(env, toks, i, numProc).err
      == ModuleShards(env, toks, HeaderRun(toks, i, ZeroModule).next, LowestEndFrom(toks, 0), numProc)[j].err
  {
    var ws := ModuleShards(env, toks, HeaderRun(toks, i, ZeroModule).next, LowestEndFrom(toks, 0), numProc);
    FirstError(ws, j);
  }

  /** The collector loop over one worker's records: each is stored in the order sent. */
  method StoreRecords(m: Module, records: seq<Record>) returns (d: Module)
    ensures d == StoreAll(m, records)
  {
    d := m;
    for k := 0 to |records|
      invariant d == StoreAll(m, records[..k])
    {
      assert records[..k + 1][..k] == records[..k];
      d := Store(d, records[k]);
    }
    assert records[..|records|] == records;
  }

  /** One shard's worker followed by its collectors: the records it sent are stored and
      its error appended. */
  method CollectWorker(env: Env, toks: seq<string>, m: Module, minIndex: nat, maxIndex: int) returns (d: Module)
    requires env.Valid()
    ensures d == Collected(m, Worker(env, toks, minIndex, maxIndex))
  {
    var records, werr := ParseModuleMainLoop(env, toks, minIndex, maxIndex);
    d := StoreRecords(m, records);
    if werr.Some? {
      d := d.(errors := d.errors + [werr.value]);
    }
  }

  /** The shard loop of `parseModuleMultithreaded`: the workers of the intended layout,
      run one after another, each followed by its collectors. */
  method CollectShards(env: Env, toks: seq<string>, h: Module, startIndex: nat, endIndex: nat, numProc: nat) returns (m: Module)
    requires env.Valid() && startIndex < endIndex && 1 <= numProc
    ensures m == CollectAll(h, ModuleShards(env, toks, startIndex, endIndex, numProc))
  {
    m := h;
    ghost var ws := ModuleShards(env, toks, startIndex, endIndex, numProc);
    var q: nat := (endIndex - startIndex) / numProc;
    for i := 0 to numProc
      invariant m == CollectAll(h, ws[..i])
    {
      var minIndex := startIndex + q * i;
      var maxIndex := if i + 1 == numProc then endIndex else minIndex + q;
      ShardBoundsOf(startIndex, endIndex, numProc, i, q, minIndex, maxIndex);
      assert ws[i] == Worker(env, toks, minIndex, maxIndex);
      m := CollectWorker(env, toks, m, minIndex, maxIndex);
      CollectAllSnoc(h, ws, i);
    }
    assert ws[..numProc] == ws;
  }

  /** `parseModuleMultithreaded` with the intended shard layout, the workers run one after
      another and the collectors merging their output in shard order. */
  method ParseModuleMultithreaded(env: Env, cur: Cursor, numProc: nat) returns (m: Module, err: Option<Error>)
    requires env.Valid() && 1 <= numProc
    modifies cur
    ensures Step(cur.index, m, err) == ShardedModule(env, cur.toks, old(cur.index), numProc)
  {
    m, err := ParseModuleHeader(cur);
    var startIndex := cur.index;
    var endIndex := FindEndIndex(cur.toks);
    if endIndex <= startIndex {
      err := Some(NoEndModule);
      return;
    }
    m := CollectShards(env, cur.toks, m, startIndex, endIndex, numProc);
    cur.index := endIndex;
    if |m.errors| > 0 {
      err := Some(m.errors[0]);
    }
  }
}
