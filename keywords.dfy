/** The keyword tokens the modelled parsers compare against.

    The source names each one by a constant (`beginAnnotationToken`, `endFrameToken`, ...)
    whose definition is not part of this model; the strings below are the A2L keyword
    spellings those names stand for, with a block opener `/begin KEYWORD` and its
    terminator `/end KEYWORD` each treated as one token. Every property proved of the
    parsers holds for any choice of distinct, non-empty strings. */
module Keywords {
  const BeginAnnotationToken := "/begin ANNOTATION"
  const ArraySizeToken := "ARRAY_SIZE"
  const BeginAxisDescrToken := "/begin AXIS_DESCR"
  const BitMaskToken := "BIT_MASK"
  const BeginBitOperationToken := "/begin BIT_OPERATION"
  const ByteOrderToken := "BYTE_ORDER"
  const CalibrationAccessToken := "CALIBRATION_ACCESS"
  const ComparisonQuantityToken := "COMPARISON_QUANTITY"
  const BeginDependentCharacteristicToken := "/begin DEPENDENT_CHARACTERISTIC"
  const DiscreteToken := "DISCRETE"
  const DisplayIdentifierToken := "DISPLAY_IDENTIFIER"
  const EcuAddressToken := "ECU_ADDRESS"
  const EcuAddressExtensionToken := "ECU_ADDRESS_EXTENSION"
  const EncodingToken := "ENCODING"
  const ErrorMaskToken := "ERROR_MASK"
  const ExtendedLimitsToken := "EXTENDED_LIMITS"
  const FormatToken := "FORMAT"
  const BeginFunctionListToken := "/begin FUNCTION_LIST"
  const GuardRailsToken := "GUARD_RAILS"
  const BeginIfDataToken := "/begin IF_DATA"
  const LayoutToken := "LAYOUT"
  const BeginMapListToken := "/begin MAP_LIST"
  const MatrixDimToken := "MATRIX_DIM"
  const MaxRefreshToken := "MAX_REFRESH"
  const ModelLinkToken := "MODEL_LINK"
  const NumberToken := "NUMBER"
  const PhysUnitToken := "PHYS_UNIT"
  const ReadOnlyToken := "READ_ONLY"
  const ReadWriteToken := "READ_WRITE"
  const RefMemorySegmentToken := "REF_MEMORY_SEGMENT"
  const StepSizeToken := "STEP_SIZE"
  const SymbolLinkToken := "SYMBOL_LINK"
  const BeginVirtualToken := "/begin VIRTUAL"
  const BeginVirtualCharacteristicToken := "/begin VIRTUAL_CHARACTERISTIC"
  const FrameMeasurementToken := "FRAME_MEASUREMENT"

  const EndCharacteristicToken := "/end CHARACTERISTIC"
  const EndMeasurementToken := "/end MEASUREMENT"
  const EndFrameToken := "/end FRAME"
  const EndRecordLayoutToken := "/end RECORD_LAYOUT"
  const EndModuleToken := "/end MODULE"

  // MODULE sub-block openers
  const BeginA2mlToken := "/begin A2ML"
  const BeginAxisPtsToken := "/begin AXIS_PTS"
  const BeginBlobToken := "/begin BLOB"
  const BeginCharacteristicToken := "/begin CHARACTERISTIC"
  const BeginCompuMethodToken := "/begin COMPU_METHOD"
  const BeginCompuTabToken := "/begin COMPU_TAB"
  const BeginCompuVtabToken := "/begin COMPU_VTAB"
  const BeginCompuVtabRangeToken := "/begin COMPU_VTAB_RANGE"
  const BeginFrameToken := "/begin FRAME"
  const BeginFunctionToken := "/begin FUNCTION"
  const BeginGroupToken := "/begin GROUP"
  const BeginInstanceToken := "/begin INSTANCE"
  const BeginMeasurementToken := "/begin MEASUREMENT"
  const BeginModCommonToken := "/begin MOD_COMMON"
  const BeginModParToken := "/begin MOD_PAR"
  const BeginRecordLayoutToken := "/begin RECORD_LAYOUT"
  const BeginTransformerToken := "/begin TRANSFORMER"
  const BeginTypeDefAxisToken := "/begin TYPEDEF_AXIS"
  const BeginTypeDefBlobToken := "/begin TYPEDEF_BLOB"
  const BeginTypeDefCharacteristicToken := "/begin TYPEDEF_CHARACTERISTIC"
  const BeginTypeDefMeasurementToken := "/begin TYPEDEF_MEASUREMENT"
  const BeginTypeDefStructureToken := "/begin TYPEDEF_STRUCTURE"
  const BeginUnitToken := "/begin UNIT"
  const BeginUserRightsToken := "/begin USER_RIGHTS"
  const BeginVariantCodingToken := "/begin VARIANT_CODING"
}
