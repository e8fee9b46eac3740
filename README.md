# A2L block parsers and offset operators, in Dafny

This project models the core of `calibrationReader`. That Go library reads ASAM
MCD-2 MC ("A2L") calibration descriptions and then reads the offset operators of a
record layout out of a memory image. The model covers:

- **The block parsers.** These are `parseCharacteristic`, `parseMeasurement`,
  `parseRecordLayout`, `parseModule`, `parseFrame`, and the leaf parsers
  `parseSymbolLink`, `parseNoRescaleY`, `parseDisplayIdentifier` and `parsePhysUnit`.
  - Each is written as a method on a shared `Cursor` (the Go `tokenGenerator`) with the
    source's own loop.
  - Each method is proved equal to a recursive specification function: the record, the
    error and the final cursor index.
  - The lemmas about those functions state what the loops promise: positional slots
    filled in order and never overwritten, repeatable sub-blocks appended, singletons
    overwritten, the end-of-input, `/end` and foreign-keyword cases, and the partial
    record returned with the first error.
- **The integer conversions.** The parsers call `strconv.ParseUint` and
  `strconv.ParseInt` in base 10. These are modelled digit by digit, in the library's
  order of checks, with a round-trip lemma for each. The error texts quote the failing
  token as `strconv.Quote` does, and `Unquote` reads the quoted text back.
- **The record-layout position checks.**
  - `getRecordLayoutRelativePositions` is an injectivity check over 41 sub-fields in a
    fixed order.
  - `GetRecordLayoutAbsolutePositions` is modelled as written, together with the
    cumulative offsets its doc comment describes.
- **The offset-operator getters** `getOffsetX` … `getOffset5` on `CalibrationData`.
  - The caller's `*uint32` cursor is a small class.
  - The byte fetch, the conversion and the datatype length are parameters.
- **The parts of `parseModuleMultithreaded` that are not concurrency.**
  - The header loop and the `/end MODULE` search.
  - The shard layout.
  - One shard worker (`parseModuleMainLoop`) as a sequential method on its own cursor.
  - The collectors, which merge the workers' output in shard order.

Collaborators the model does not see are stated by their assumed contracts in module
`Collaborators`:

- `isKeyword`, the sub-parsers, `parseTypeEnum` and `parseDataTypeEnum`;
- `strconv.ParseFloat`, as a function giving the kind of its error (syntax or range), or none.

The one assumption about the cursor-taking collaborators
(`Env.Valid`) is that they never move the cursor backwards. The end-of-input
sentinel `emptyToken` is modelled as the empty string, returned for every index past
the end of the token sequence. Keyword tokens are given their standard A2L spellings
(`keywords.dfy`).

## Model

| member | source | states |
|---|---|---|
| `DisplayIdentifiers.DisplayIdentifierOf` | a2l/display_identifier.go:14-30 | exactly one token is consumed; the flag is set exactly when there is no error, and then the name is that token |
| `DisplayIdentifiers.DisplayIdentifierErrors` | a2l/display_identifier.go:18-27 | end of input gives "unexpected end of file", a keyword gives "unexpected token", each with the flag unset; any other token succeeds |
| `DisplayIdentifiers.ParseDisplayIdentifier` | a2l/display_identifier.go:14-30 | the record, error and cursor of the method are those of `DisplayIdentifierOf` on the old cursor |
| `PhysUnits.PhysUnitOf` | a2l/phys_unit.go:14-30 | exactly one token is consumed; `UnitSet` is true exactly when there is no error, and then the unit is that token |
| `PhysUnits.PhysUnitErrors` | a2l/phys_unit.go:18-27 | end of input and keyword errors with `UnitSet` false; any other token succeeds |
| `PhysUnits.ParsePhysUnit` | a2l/phys_unit.go:14-30 | the method's result and cursor are those of `PhysUnitOf` |
| `SymbolLinks.SymbolLinkRun` | a2l/symbol_link.go:17-50 | the cursor advances; a newly set offset comes with no error and lies in the int32 range |
| `SymbolLinks.SymbolLinkSuccess` | a2l/symbol_link.go:22-45 | success exactly when the next two tokens are literals and the second is a decimal int32; then exactly two tokens are consumed, the first is the name and the second's value the offset |
| `SymbolLinks.SymbolLinkErrors` | a2l/symbol_link.go:23-41 | `offsetSet` exactly when there is no error; end of input, keyword and `ParseInt` errors on either token, in the source's order |
| `SymbolLinks.SymbolLinkOffsetMessage` | a2l/symbol_link.go:36-41 | a bad offset token gives "strconv.ParseInt: parsing " + the quoted token + ": " + the failure kind's text |
| `SymbolLinks.SymbolLinkOffsetMessagePlain` | a2l/symbol_link.go:36-41 | for a token of plain characters that text holds the token itself between double quotes |
| `SymbolLinks.ParseSymbolLink` | a2l/symbol_link.go:17-50 | the method's result and cursor are those of `SymbolLinkRun` from a zero record |
| `NoRescaleYs.NoRescaleYRun` | src/a2l/no_rescale_y.go:16-50 | the cursor advances; a newly set datatype comes with no error and a set position |
| `NoRescaleYs.NoRescaleYSuccess` | src/a2l/no_rescale_y.go:22-46 | success exactly when the first token is a decimal uint16 and the datatype parse of the second succeeds; then both flags are set, the position is the first token's value (at most 65535) and the datatype the parser's |
| `NoRescaleYs.NoRescaleYNoKeywordCheck` | src/a2l/no_rescale_y.go:22-32 | a first token that does not start with a digit, keyword or not, fails only as a `ParseUint` syntax error |
| `NoRescaleYs.ParseNoRescaleY` | src/a2l/no_rescale_y.go:16-50 | the method's result and cursor are those of `NoRescaleYRun` from a zero record |
| `Tokens.Cursor.Next` | a2l/symbol_link.go:22-23 | `next()` advances the index by exactly one and returns the token now under the cursor, the sentinel past the end |
| `Tokens.Error.Message` | a2l/symbol_link.go:28-41 | definition, no contract: the text of each error; the numeric ones are "strconv.<func>: parsing <quoted token>: invalid syntax / value out of range" |
| `Tokens.EscapeChar` | a2l/symbol_link.go:37-41 | a plain character is written as itself; any other starts a backslash escape |
| `Tokens.Quote` | a2l/symbol_link.go:37-41 | the quoted text starts and ends with a double quote |
| `Tokens.UnescapeEscaped` | a2l/symbol_link.go:37-41 | the escaped text reads back as the original string |
| `Tokens.QuoteRoundTrip` | a2l/symbol_link.go:37-41 | unquoting the quoted text gives the original string back |
| `Tokens.QuotePlain` | a2l/symbol_link.go:37-41 | a string of plain characters is quoted verbatim between two double quotes |
| `Numbers.ScanUint` | src/a2l/no_rescale_y.go:28 | the digit loop: from an in-range value a success stays at most the maximum, no smaller than where it started, and only when every remaining character is a digit |
| `Numbers.ParseUint` | src/a2l/no_rescale_y.go:28 | a success is a value of `bits` bits read from a non-empty string of digits only |
| `Numbers.ParseUintSpec` | src/a2l/no_rescale_y.go:28 | `ParseUint(s, 10, bits)`: empty is a syntax error; leading digits above the maximum are a range error; a later non-digit is a syntax error; otherwise the value of the digits |
| `Numbers.ParseUintOk` | a2l/measurement.go:247-256 | success exactly on non-empty digit strings whose value fits in `bits` bits, with that value |
| `Numbers.ParseUintRoundTrip` | src/a2l/no_rescale_y.go:28 | every value that fits is read back from its decimal spelling |
| `Numbers.ParseInt32` | a2l/symbol_link.go:36-42 | a successful `ParseInt(s, 10, 32)` yields a value in the int32 range |
| `Numbers.ParseInt32Ok` | a2l/symbol_link.go:36-41 | success exactly on an optionally signed digit string whose signed value lies in the int32 range, yielding that value |
| `Numbers.ParseInt32RoundTrip` | a2l/symbol_link.go:37 | every int32 value is read back from its decimal spelling |
| `Numbers.ParseInt32Errors` | a2l/symbol_link.go:37-41 | a syntax error exactly when nothing follows the sign or a non-digit follows an in-range digit run; a range error exactly when the digit run exceeds 2^32 - 1, whatever follows it, or the signed value of a digit string leaves the int32 range |
| `Numbers.ParseInt32RangeBeforeSyntax` | a2l/symbol_link.go:37 | "5000000000x" is a range error, not a syntax error |
| `Frames.FrameRun` | src/a2l/frame.go:22-73 | the cursor advances; IF_DATA only grows; no flag is ever set; success ends on end of input or `/end FRAME` |
| `Frames.FrameTrailingUnreachable` | src/a2l/frame.go:49-69 | a parsed frame never has `nameSet`, and its long identifier, scaling unit and rate keep their zero values |
| `Frames.FrameLastLiteralWins` | src/a2l/frame.go:44-50 | on a run of literals (keywords included) closed by `/end FRAME`, the name is the last of them and nothing else changes |
| `Frames.FrameEndOfInput` | src/a2l/frame.go:45-48 | end of input and `/end FRAME` both end the loop with no error |
| `Frames.FrameSubBlocks` | src/a2l/frame.go:28-43 | FRAME_MEASUREMENT is replaced, IF_DATA appended; a sub-parser error ends the loop with the record as it was |
| `Frames.ParseFrame` | src/a2l/frame.go:22-73 | the method's result and cursor are those of `FrameRun` from a zero frame |
| `Characteristics.CharacteristicLiteral` | a2l/characteristic.go:281-338 | a literal keeps every set slot, keeps the slot order and fails only with an error |
| `Characteristics.CharacteristicSub` | a2l/characteristic.go:67-269 | a sub-block branch keeps the slots and only appends to lists |
| `Characteristics.CharacteristicTurn` | a2l/characteristic.go:66-340 | one turn advances the cursor, keeps slots and order, only appends; a clean stop is `/end CHARACTERISTIC` |
| `Characteristics.CharacteristicRun` | a2l/characteristic.go:61-343 | the whole loop keeps set slots, only appends to lists, keeps slot order; success ends on `/end CHARACTERISTIC` |
| `Characteristics.CharacteristicLiteralFills` | a2l/characteristic.go:281-338 | a literal sets exactly the first unset of the nine flags, in the order Name … UpperLimit; text slots (Address and Deposit included) hold the token verbatim; after the ninth, literals change nothing |
| `Characteristics.CharacteristicSlotFailure` | a2l/characteristic.go:289-333 | a failed type parse, or a float parse of MaxDiff, LowerLimit or UpperLimit, ends the loop with that error, and that flag stays unset; a float error carries `ParseFloat`'s kind (syntax or range); the other slots never fail |
| `Characteristics.CharacteristicDefault` | a2l/characteristic.go:270-280 | end of input and foreign keyword errors; `/end CHARACTERISTIC` ends the loop with no error, the record unchanged |
| `Characteristics.CharacteristicSubBlock` | a2l/characteristic.go:67-90 | a repeatable block is appended only when it parses, otherwise the loop stops with the partial record; a singleton holds its parser's value whatever the outcome |
| `Characteristics.CharacteristicFromStart` | a2l/characteristic.go:61-343 | from a zero record `AddressUint32` stays 0 and the flags are in slot order |
| `Characteristics.ParseCharacteristicSubBlock` | a2l/characteristic.go:67-269 | the sub-block cases of the method agree with `CharacteristicSub` |
| `Characteristics.FillCharacteristicSlot` | a2l/characteristic.go:281-338 | the positional cases of the method agree with `CharacteristicLiteral` |
| `Characteristics.ParseCharacteristic` | a2l/characteristic.go:61-343 | the method's result and cursor are those of `CharacteristicRun` from a zero record |
| `Measurements.MeasurementLiteral` | a2l/measurement.go:227-286 | a literal keeps every set slot and the slot order |
| `Measurements.MeasurementSub` | a2l/measurement.go:57-215 | a sub-block branch keeps the slots and only appends to lists |
| `Measurements.MeasurementTurn` | a2l/measurement.go:56-287 | one turn advances the cursor, keeps slots and order; a clean stop is `/end MEASUREMENT` |
| `Measurements.MeasurementRun` | a2l/measurement.go:51-291 | the whole loop keeps set slots, only appends to lists, keeps slot order; success ends on `/end MEASUREMENT` |
| `Measurements.MeasurementLiteralFills` | a2l/measurement.go:227-286 | a literal sets exactly the first unset of the eight flags, in the order Name … UpperLimit; after the eighth, literals change nothing |
| `Measurements.MeasurementResolution` | a2l/measurement.go:247-256 | Resolution is filled exactly by a non-empty decimal string of value at most 65535, with that value; otherwise the `ParseUint` error with the record unchanged |
| `Measurements.MeasurementSlotFailure` | a2l/measurement.go:235-286 | a failed datatype parse or float parse ends the loop with that error and the flag unset; a float error carries `ParseFloat`'s kind (syntax or range) |
| `Measurements.MeasurementDefault` | a2l/measurement.go:216-226 | end of input and foreign keyword errors; `/end MEASUREMENT` ends the loop with no error |
| `Measurements.MeasurementSubBlock` | a2l/measurement.go:59-142 | Annotation and IF_DATA are appended only when they parse; FUNCTION_LIST and the other singletons hold their parser's last value |
| `Measurements.MeasurementFromStart` | a2l/measurement.go:51-291 | from a zero record the flags are in slot order |
| `Measurements.ParseMeasurementSubBlock` | a2l/measurement.go:57-215 | the sub-block cases of the method agree with `MeasurementSub` |
| `Measurements.FillMeasurementSlot` | a2l/measurement.go:227-286 | the positional cases of the method agree with `MeasurementLiteral` |
| `Measurements.ParseMeasurement` | a2l/measurement.go:51-291 | the method's result and cursor are those of `MeasurementRun` from a zero record |
| `RecordLayouts.SubFieldOf` | a2l/record_layout.go:76-461 | neither the end-of-input sentinel nor `/end RECORD_LAYOUT` names a sub-field |
| `RecordLayouts.ParseRecordLayoutSubField` | a2l/record_layout.go:76-461 | a sub-field keyword: that sub-field takes its parser's value even when the parser fails; the cursor and error are the parser's |
| `RecordLayouts.RecordLayoutStep` | a2l/record_layout.go:74-477 | one pass of the loop body (`next()` and the `switch`) does what `RecordLayoutTurn` says, `break` being a stop |
| `RecordLayouts.RecordLayoutTurn` | a2l/record_layout.go:74-477 | one turn advances the cursor and never changes a set name; a clean stop is `/end RECORD_LAYOUT` |
| `RecordLayouts.RecordLayoutRun` | a2l/record_layout.go:70-480 | the loop never changes a set name; success ends on `/end RECORD_LAYOUT` |
| `RecordLayouts.RecordLayoutLiteralsAndFields` | a2l/record_layout.go:76-476 | the first literal becomes the name and later ones are ignored; a sub-field keyword assigns exactly that sub-field from its parser, even on failure, and a failure stops the loop |
| `RecordLayouts.RecordLayoutDefault` | a2l/record_layout.go:462-471 | end of input and foreign keyword errors; `/end RECORD_LAYOUT` ends the loop with no error |
| `RecordLayouts.ParseRecordLayout` | a2l/record_layout.go:70-480 | the method's result and cursor are those of `RecordLayoutRun` from a zero layout |
| `PositionChecks.RelativeFromSpec` | a2l/record_layout.go:506-873 | the insert-or-collide walk succeeds exactly when the placed candidates have distinct positions and then holds all of them; a failure reports the first collision with the map of the fields before it |
| `RecordLayouts.RelativePositions` | a2l/record_layout.go:500-875 | success exactly when the positioned checked sub-fields have pairwise distinct positions, each then mapped to its field's name and nothing else; otherwise "position set twice in RecordLayout <name> for <earlier> and <later>" for the first collision in check order, with the map of the fields checked before it |
| `RecordLayouts.CheckedAt` | a2l/record_layout.go:506-873 | no sub-field the check examines is an alignment, a FIX_NO_AXIS_PTS field or a STATIC keyword |
| `RecordLayouts.RelativeIgnoresUnchecked` | a2l/record_layout.go:488-498 | the alignments, FIX_NO_AXIS_PTS fields and the two STATIC keywords never affect the result, so the doc-comment example does not collide |
| `RecordLayouts.GetRecordLayoutRelativePositions` | a2l/record_layout.go:500-875 | the method's map and error are those of `RelativePositions` |
| `RecordLayouts.OneFieldLayoutPositions` | a2l/record_layout.go:500-875 | a layout with only FNC_VALUES at 7 gives the map {7: "FncValues"} and no error |
| `PositionChecks.SortedPositions` | a2l/record_layout.go:891-899 | the `positions` slice: exactly the keys of the map, strictly ascending |
| `RecordLayouts.GetDatatypeByFieldName` | a2l/record_layout.go:914-931 | every name yields the undefined datatype and no error |
| `RecordLayouts.GetRecordLayoutAbsolutePositions` | a2l/record_layout.go:880-911 | as written: the error is the relative check's, passed on unchanged, and the map is always empty |
| `RecordLayouts.AbsolutePositionsLost` | a2l/record_layout.go:902-911 | whenever the relative check succeeds with a positioned field, the intended result has an entry for each of them, unlike the empty map returned |
| `PositionChecks.OffsetsSpec` | a2l/record_layout.go:878-879 | over ascending positions, each gets the start offset plus the widths of all positions before it, and there are no other keys |
| `PositionChecks.SpanOrdered` | a2l/record_layout.go:878-879 | a field at an earlier index ends no later than any later field starts |
| `RecordLayouts.IntendedAbsolutePositions` | a2l/record_layout.go:878-899 | intent: the relative error unchanged; otherwise every relative position, in ascending order, starts where the fields before it end |
| `RecordLayouts.IntendedNoOverlap` | a2l/record_layout.go:878-879 | intent: no two fields of the intended layout overlap |
| `OffsetOps.Wrap32` | offsetOp.go:27 | Go's `uint32` truncation, the identity below 2^32 |
| `OffsetOps.OffsetRead` | offsetOp.go:11-28 | without a datatype: 0, "offsetX datatype not set", cursor unchanged; every failure returns 0 with the cursor unchanged; a failed fetch returns the fetch's error, and a failed conversion of fetched bytes the conversion's error; success exactly when datatype set, fetch and conversion succeed, with the value converted from the bytes at the old cursor and the cursor advanced by the length modulo 2^32 |
| `OffsetOps.OffsetReadsOwnField` | offsetOp.go:12-27 | a getter's outcome does not depend on any other sub-field of the layout |
| `OffsetOps.TwoReadsAdvance` | offsetOp.go:27 | two successful calls advance the cursor by the sum of both lengths, modulo 2^32 |
| `OffsetOps.GetOffset` | offsetOp.go:11-28 | the values returned and the new cursor are those of `OffsetRead` on the old cursor |
| `OffsetOps.GetOffsetX` | offsetOp.go:11-28 | `getOffsetX` is `OffsetRead` for OFFSET_X |
| `OffsetOps.GetOffsetY` | offsetOp.go:32-49 | `getOffsetY` is `OffsetRead` for OFFSET_Y |
| `OffsetOps.GetOffsetZ` | offsetOp.go:53-70 | `getOffsetZ` is `OffsetRead` for OFFSET_Z |
| `OffsetOps.GetOffset4` | offsetOp.go:74-91 | `getOffset4` is `OffsetRead` for OFFSET_4 |
| `OffsetOps.GetOffset5` | offsetOp.go:95-112 | `getOffset5` is `OffsetRead` for OFFSET_5 |
| `Modules.ModuleEntryOf` | a2l/module.go:94-297 | neither the end-of-input sentinel nor `/end MODULE` opens a MODULE sub-block |
| `Modules.Store` | a2l/module.go:100-116 | after storing, the module holds exactly that record at its place and name, replacing an earlier one; every other place and name, the header and the errors are unchanged |
| `Modules.SubParse` | a2l/module.go:94-297 | a MODULE sub-parser never moves the cursor back |
| `Modules.ModuleSub` | a2l/module.go:94-297 | a sub-block branch keeps the header and errors; it stops only with an error |
| `Modules.ModuleTurn` | a2l/module.go:92-319 | one turn advances the cursor and keeps a set name and long identifier; a clean stop is `/end MODULE` |
| `Modules.ModuleRun` | a2l/module.go:45-320 | the loop keeps a set name and long identifier; success ends on `/end MODULE` |
| `Modules.ModuleLiteralsFill` | a2l/module.go:309-316 | literals fill the name, then the long identifier, each flag once; later literals change nothing |
| `Modules.ModuleDefault` | a2l/module.go:298-308 | end of input and foreign keyword errors; `/end MODULE` ends the loop with no error |
| `Modules.ModuleSubBlock` | a2l/module.go:100-297 | a record that parses is stored and the loop continues; the first error ends the loop with the module so far (a singleton having been assigned first) |
| `Modules.ParseRecord` | a2l/module.go:94-297 | the sub-parser calls of the method agree with `SubParse` |
| `Modules.ParseModule` | a2l/module.go:45-320 | the method's module, error and cursor are those of `ModuleRun` from a zero module |
| `Modules.HeaderRun` | a2l/module.go:353-370 | the header loop advances the cursor and keeps the errors |
| `Modules.HeaderTakesTwo` | a2l/module.go:353-370 | from a zero module the header takes exactly the next two tokens as name and long identifier, or fails with "unexpected end of file" on the sentinel |
| `Modules.ParseModuleHeader` | a2l/module.go:353-370 | the method's result and cursor are those of `HeaderRun` |
| `Modules.LowestEndFrom` | a2l/module.go:410-414 | the lowest index holding `/end MODULE`, or 0 when there is none |
| `Modules.FindEndIndex` | a2l/module.go:410-414 | the downward overwriting search finds the lowest `/end MODULE`, or leaves 0 |
| `Workers.WorkerRun` | a2l/module.go:708-1003 | every index a shard worker looks at lies in (minIndex, maxIndex]; its stop conditions are stated by `WorkerStops` and `WorkerStopReason` |
| `Workers.WorkerStops` | a2l/module.go:746-1002 | one clause per branch: nothing once the index reaches maxIndex; a failing sub-block parser ends the worker with its error and no record; a parsed record is sent and the loop resumes where the parser stopped; the sentinel stops with "unexpected end of file", `/end MODULE` with no error; a skipped literal or keyword below the bound leaves records and error as the run from the next index |
| `Workers.WorkerStopReason` | a2l/module.go:746-1002 | a worker below its bound looks at at least one index, and the last one it looks at explains its stop: the sentinel (error "unexpected end of file"), `/end MODULE`, a skipped token at maxIndex, a sub-block whose parser failed (that error), or one whose parser reached the bound; no other error comes out |
| `Workers.WorkerLastOpener` | a2l/module.go:746-1002 | over skipped tokens up to a sub-block opener at maxIndex, the worker parses it: the record alone is sent on success, the parser's error reported otherwise |
| `Workers.WorkerVisitsAll` | a2l/module.go:746-1002 | over skipped tokens a worker looks at every index of its range in turn |
| `Workers.WorkerVisits` | a2l/module.go:746-1002 | such a worker looks at any one index of its range |
| `Modules.Worker` | a2l/module.go:708-1003 | the MODULE worker: indices looked at lie in (minIndex, maxIndex] |
| `Modules.ParseModuleMainLoop` | a2l/module.go:708-1003 | the worker method on its own cursor sends the records and reports the error of `Worker` |
| `Modules.StoreAll` | a2l/module.go:455-665 | storing a worker's records keeps the header and errors |
| `Modules.Collected` | a2l/module.go:466-473 | a worker's error is appended to `errors`; the header is kept |
| `Modules.CollectAll` | a2l/module.go:455-665 | the merged errors are the workers' errors in shard order |
| `Modules.StoreRecords` | a2l/module.go:455-665 | the collector loop stores one worker's records in the order sent |
| `Modules.CollectWorker` | a2l/module.go:424-440 | one shard's worker followed by its collectors |
| `Modules.CollectShards` | a2l/module.go:420-440 | the shard loop over the intended layout merges the workers in shard order |
| `Modules.ModuleShards` | a2l/module.go:420-426 | one worker per shard, worker j on the bounds of shard j |
| `Sharding.ShardBoundsAsWritten` | a2l/module.go:422-426 | as written: each shard starts within [start, end] and ends no later than end; the last one ends at end |
| `Sharding.ShardLayoutAsWritten` | a2l/module.go:420-426 | as written: shard 0 starts at `startIndex`, the last ends at `endIndex`, and max_i + 1 == min_{i+1} |
| `Sharding.AsWrittenGap` | a2l/module.go:420-426 | as written, with shards of at least one token, the first index of every shard but the first lies in no range (min, max] |
| `Workers.ShardStartSkipped` | a2l/module.go:420-426 | as written, no worker ever looks at the first index of shards 1 … numProc-1 |
| `Sharding.ShardBounds` | a2l/module.go:420-426 | intended layout: every shard lies within [start, end] |
| `Sharding.ShardLayout` | a2l/module.go:420-426 | intended layout: shard 0 starts at start, the last ends at end, each ends where the next begins |
| `Sharding.ShardsOrdered` | a2l/module.go:420-426 | intended layout: a shard ends no later than any later shard begins |
| `Sharding.ShardOf` | a2l/module.go:420-426 | the shard whose range (lo, hi] holds a given index |
| `Sharding.ShardPartition` | a2l/module.go:420-426 | intended layout: each index of (start, end] lies in the range of exactly one shard |
| `Workers.Shards` | a2l/module.go:420-426 | the workers of all shards, in shard order |
| `Workers.ShardsCover` | a2l/module.go:420-426 | intended layout: over skipped tokens every index of (start, end] is looked at by some worker |
| `Workers.ShardsDisjoint` | a2l/module.go:420-426 | intended layout: no index is looked at by two workers |
| `Workers.ShardStartParsed` | a2l/module.go:420-426 | intended layout: a sub-block opener at the first index of shard s >= 1 (the index the layout as written skips) is looked at and parsed by worker s-1 when the tokens before it in that shard are skipped ones: its record is sent, or its error reported |
| `Sharding.NoErrors` | a2l/module.go:445-447 | no error is collected exactly when no worker failed |
| `Sharding.FirstError` | a2l/module.go:445-447 | otherwise the first collected error is that of the first failing worker in shard order |
| `Modules.HeaderEofNoEnd` | a2l/module.go:353-418 | a header that hits end of input ends in "no '/end module' token found" |
| `Modules.ShardedModule` | a2l/module.go:326-449 | (intended layout) the result keeps the header's name and long identifier; with no `/end MODULE` beyond the header, the header's state and "no '/end module' token found"; otherwise the cursor ends on `/end MODULE` |
| `Modules.ShardedNoError` | a2l/module.go:444-449 | with no failing worker the error is the header's own |
| `Modules.ShardedFirstError` | a2l/module.go:444-447 | the error is that of the first failing worker in shard order |
| `Modules.ParseModuleMultithreaded` | a2l/module.go:326-449 | the method's module, error and cursor are those of `ShardedModule` (intended layout, workers one after another) |

## Left out

- Concurrency: the goroutines, channels, `sync.WaitGroup` and the 27 collector goroutines of `parseModuleMultithreaded` are not modelled. The workers run one after another and their output is merged in shard order, so the order in which records from different shards reach the maps is not captured. In Go it is not determined, and with two records of the same name it decides which one is kept.
- `Modules.ShardedFirstError`: Go's `errors[0]` (a2l/module.go:446) is the first error to arrive on the error channel. The model returns the first failing worker's error in shard order, which is only one of the errors Go may report.
- `Modules.ParseModuleMultithreaded`, `Modules.ShardedModule`, `Modules.ShardedNoError`, `Modules.CollectShards`, `Modules.ModuleShards` and `Workers.Shards` use the corrected shard layout, not the one written (see Findings). The layout as written is modelled by `Sharding.AsWrittenGap` and `Workers.ShardStartSkipped`.
- `numProc` is a parameter of the model. The source takes it from its environment.
- Logging (zerolog and `fmt.Println`) is left out.
- Floating-point parsing: `strconv.ParseFloat` is a parameter giving the kind of its error, or none (`Env.floatErr`). The slots hold the accepted text, not a float value.
- `Tokens.Quote` does not model `strconv.Quote` beyond ASCII. Go escapes a non-printable non-ASCII rune as `\u` or `\U` and an invalid UTF-8 byte as `\x`. The model writes every character from U+0080 up unchanged, and its strings hold characters, not bytes.
- Unseen collaborators become parameters with assumed contracts:
  - `tokenGenerator`, the global `tokenList` and `emptyToken` are not part of this model;
  - `isKeyword` and every `parseXxx` sub-parser;
  - `parseTypeEnum` and `parseDataTypeEnum`;
  - `GetDatatypeLength`, `CalibrationData.getValue` and `convertByteSliceToDatatype`.

  The sub-parsers are assumed never to move the cursor back, and `getValue` is assumed not to move `*curPos`. No byte-order claim is made.
- Keyword spellings are taken to be the standard A2L ones; the source's token constants are not shown.
- `OffsetOps.OffsetRead`: the converted value is an unbounded integer. The `int64(val)` conversion of the getters is not modelled.
- `Modules.HeaderEofNoEnd` assumes that no token equals the sentinel, which holds of a tokenizer that never emits an empty token.
- `RecordLayouts.GetRecordLayoutAbsolutePositions`: the sort of `positions` in place is modelled as a function on values (`PositionChecks.SortedPositions`). The function gives the same ascending sequence of keys.
- `RecordLayouts.IntendedAbsolutePositions` is intent, not behaviour of the source, which computes no offsets. It is keyed by relative position, gives offsets in the unit of the length function, and takes each field's datatype from a lookup by position, which `getDatatypeByFieldName` evidently stands for.
- Cross-file type mismatches between the `a2l/` and `src/a2l/` copies, such as `frame` and `FRAME`, are not reconciled. Each file is modelled on its own.
- `src/ihex32/hex_test.go` opens files at fixed paths and benchmarks. There is no logic in it to model.

## Findings

| source | as written | input that shows it | evidently intended | confidence | as-written member | corrected member |
|---|---|---|---|---|---|---|
| a2l/module.go:420-426 | shard i gets maxIndex = minIndex + q - 1. The worker pre-increments its cursor (a2l/module.go:746-751), so it looks at (minIndex, maxIndex]. The first index of every shard after the first is looked at by no worker, and a `/begin` there is never parsed | tokens with startIndex = 10, endIndex = 20 and numProc = 2: the shards are [10, 14] and [15, 20], and index 15 is never looked at | maxIndex = minIndex + q, so that the ranges (minIndex, maxIndex] cover (startIndex, endIndex] exactly once | high (proved; not executed) | `Sharding.AsWrittenGap`, `Workers.ShardStartSkipped` | `Sharding.ShardPartition`, `Workers.ShardsCover`, `Workers.ShardsDisjoint`, `Workers.ShardStartParsed` |
| a2l/record_layout.go:880-911 | `GetRecordLayoutAbsolutePositions` sorts the relative positions and visits them, but never writes to `orderAbs`. `getDatatypeByFieldName` has an empty `switch` | the layout `OneFieldLayout`, with FNC_VALUES at position 7: the relative map is {7: "FncValues"}, but the absolute map is empty | each positioned field's offset is the sum of the lengths of the fields before it (doc comment, a2l/record_layout.go:878-879) | medium (the intended unit and key are not stated; not executed) | `RecordLayouts.GetRecordLayoutAbsolutePositions`, `RecordLayouts.AbsolutePositionsLost` | `RecordLayouts.IntendedAbsolutePositions`, `RecordLayouts.IntendedNoOverlap` |
