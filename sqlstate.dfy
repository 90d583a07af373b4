/** `OracleSqlStateCode::getSqlStateErrorCode` (src/OracleSqlStateCode.php): the classification of an
    Oracle error number into a SQLSTATE class after Oracle's "Oracle Error Codes to SQLSTATE Mapping"
    appendix. The cascade is first-match: a code listed under several classes gets the earliest. */
module OracleSqlStateCode {
  import opened Optional
  import opened Strings

  /** The SQLSTATE classes the cascade returns (the `SqlStateCode` constants). */
  datatype SqlState =
    | SuccessfulCompletion
    | NoData
    | InvalidDescriptorCount
    | ConnectionDoesNotExist
    | FeatureNotSupported
    | CardinalityViolation
    | StringDataRightTruncation
    | IndicatorVariableNotSupplied
    | NumericValueOutOfRange
    | DatetimeFieldOverflow
    | DivisionByZero
    | InvalidEscapeChar
    | IndicatorOverflow
    | InvalidParamValue
    | UnterminatedCString
    | InvalidEscapeSequence
    | IntegrityConstraintViolation1
    | InvalidCursorState
    | TransactionRollback
    | SyntaxErrorOrAccessRuleViolation3
    | WithCheckOptionViolation
    | SystemErrors
    | ResourceError
    | MultiThreadedServerOrDetachedProcessError
    | OracleXaAnd2TaskInterfaceError
    | ArchivalAndMediaRecoveryError
    | PlSqlError
    | SqlNetDriverError
    | LicensingError
    | SqlConnectError
    | SqlExecutePhaseError
    | OutOfMemory
    | InconsistentCursorCacheMismatch
    | InconsistentCursorCacheNoEntry
    | InconsistentCursorCacheRefOutOfRange
    | InconsistentHostCacheNotAvailable
    | InconsistentCursorCacheNotFound
    | InconsistentCursorCacheInvalidNumber
    | ProgramTooOld
    | InvalidDescriptorPassed
    | InconsistentHostCacheRefOutOfRange
    | InconsistentHostCacheInvalidEntryType
    | HeapConsistencyError
    | UnableToOpenMessageFile
    | CodeGenerationInternalConsistencyFailed
    | ReentrantCodeGeneratorGaveInvalidContext
    | InvalidHstdefArgument
    | FirstAndSecondArgsToSqlrcnBothNull
    | InvalidOpenOrPrepare
    | ApplicationContextNotFound
    | ConnectionErrorNoErrorText
    | PrecompilerVersionMismatch
    | FetchedNumberOfBytesIsOdd
    | ExecToolsInterfaceNotAvailable
    | DebugEvents
    | GeneralError

  /** The first-match cascade, case by case in the order of the source. */
  function Classify(code: int): (r: SqlState)
  {
    if code == 0 then SuccessfulCompletion
    else if code == 1095 || code == 1403 then NoData
    else if code == 2126 then InvalidDescriptorCount
    else if code == 2121 then ConnectionDoesNotExist
    else if 3000 <= code <= 3099 then FeatureNotSupported
    else if code == 1427 || code == 2112 then CardinalityViolation
    else if code == 1401 || code == 1406 then StringDataRightTruncation
    else if code == 1405 || code == 2124 then IndicatorVariableNotSupplied
    else if code == 1426 || code == 1438 || code == 1455 || code == 1457 then NumericValueOutOfRange
    else if 1800 <= code <= 1899 then DatetimeFieldOverflow
    else if code == 1476 then DivisionByZero
    else if code == 911 || code == 1425 then InvalidEscapeChar
    else if code == 1411 then IndicatorOverflow
    else if code == 1025 || code == 1488 || 4000 <= code <= 4019 then InvalidParamValue
    else if 1479 <= code <= 1480 then UnterminatedCString
    else if code == 1424 then InvalidEscapeSequence
    else if code == 1 || 2290 <= code <= 2299 then IntegrityConstraintViolation1
    else if 1001 <= code <= 1003 || code == 1410 || code == 8006 || code == 2114 || code == 2117
         || code == 2118 || code == 2122 then InvalidCursorState
    else if code == 2091 || code == 2092 then TransactionRollback
    else if code == 22 || code == 251 || 900 <= code <= 999 || code == 1031 || 1490 <= code <= 1493
         || 1700 <= code <= 1799 || 1900 <= code <= 2099 || 2140 <= code <= 2289 || 2420 <= code <= 2424
         || 2450 <= code <= 2499 || 3276 <= code <= 3299 || 4040 <= code <= 4059 || 4070 <= code <= 4099
    then SyntaxErrorOrAccessRuleViolation3
    else if code == 1402 then WithCheckOptionViolation
    else if 370 <= code <= 429 || 600 <= code <= 899 || 6430 <= code <= 6449 || 7200 <= code <= 7999
         || 9700 <= code <= 9999 then SystemErrors
    else if 18 <= code <= 35 || 50 <= code <= 68 || 2376 <= code <= 2399 || 4020 <= code <= 4039
    then ResourceError
    else if 100 <= code <= 120 || 440 <= code <= 569 then MultiThreadedServerOrDetachedProcessError
    else if 150 <= code <= 159 || code == 2128 || 2700 <= code <= 2899 || 3100 <= code <= 3199
         || 6200 <= code <= 6249 then OracleXaAnd2TaskInterfaceError
    else if 200 <= code <= 369 || 1100 <= code <= 1250 then ArchivalAndMediaRecoveryError
    else if 6500 <= code <= 6599 then PlSqlError
    else if 6000 <= code <= 6149 || 6250 <= code <= 6429 || 6600 <= code <= 6999 || 12100 <= code <= 12299
         || 12500 <= code <= 12599 then SqlNetDriverError
    else if 430 <= code <= 439 then LicensingError
    else if 570 <= code <= 599 || 7000 <= code <= 7199 then SqlConnectError
    else if 1000 <= code <= 1099 || 1400 <= code <= 1489 || 1495 <= code <= 1499 || 1500 <= code <= 1699
         || 2400 <= code <= 2419 || 2425 <= code <= 2449 || 4060 <= code <= 4069 || 8000 <= code <= 8190
         || 12000 <= code <= 12019 || 12300 <= code <= 12499 || 12700 <= code <= 21999
    then SqlExecutePhaseError
    else if code == 2100 then OutOfMemory
    else if code == 2101 then InconsistentCursorCacheMismatch
    else if code == 2102 then InconsistentCursorCacheNoEntry
    else if code == 2103 then InconsistentCursorCacheRefOutOfRange
    else if code == 2104 then InconsistentHostCacheNotAvailable
    else if code == 2105 then InconsistentCursorCacheNotFound
    else if code == 2106 then InconsistentCursorCacheInvalidNumber
    else if code == 2107 then ProgramTooOld
    else if code == 2108 then InvalidDescriptorPassed
    else if code == 2109 then InconsistentHostCacheRefOutOfRange
    else if code == 2110 then InconsistentHostCacheInvalidEntryType
    else if code == 2111 then HeapConsistencyError
    else if code == 2113 then UnableToOpenMessageFile
    else if code == 2115 then CodeGenerationInternalConsistencyFailed
    else if code == 2116 then ReentrantCodeGeneratorGaveInvalidContext
    else if code == 2119 then InvalidHstdefArgument
    else if code == 2120 then FirstAndSecondArgsToSqlrcnBothNull
    else if code == 2122 then InvalidOpenOrPrepare
    else if code == 2123 then ApplicationContextNotFound
    else if code == 2125 then ConnectionErrorNoErrorText
    else if code == 2127 then PrecompilerVersionMismatch
    else if code == 2129 then FetchedNumberOfBytesIsOdd
    else if code == 2130 then ExecToolsInterfaceNotAvailable
    else if 10000 <= code <= 10999 then DebugEvents
    else GeneralError
  }

  // ---------------------------------------------------------------- the table, class by class

  /** The codes the mapping lists under each class, read without regard to order: `Listed(code, s)`
      holds when some case of class `s` names `code`. A code can be listed under several classes;
      `GeneralError` is the default and lists nothing. */
  predicate Listed(code: int, s: SqlState)
  {
    match s
    case SuccessfulCompletion => code == 0
    case NoData => (code == 1095 || code == 1403)
    case InvalidDescriptorCount => code == 2126
    case ConnectionDoesNotExist => code == 2121
    case FeatureNotSupported => 3000 <= code <= 3099
    case CardinalityViolation => (code == 1427 || code == 2112)
    case StringDataRightTruncation => (code == 1401 || code == 1406)
    case IndicatorVariableNotSupplied => (code == 1405 || code == 2124)
    case NumericValueOutOfRange => (code == 1426 || code == 1438 || code == 1455 || code == 1457)
    case DatetimeFieldOverflow => 1800 <= code <= 1899
    case DivisionByZero => code == 1476
    case InvalidEscapeChar => (code == 911 || code == 1425)
    case IndicatorOverflow => code == 1411
    case InvalidParamValue => (code == 1025 || code == 1488) || 4000 <= code <= 4019
    case UnterminatedCString => 1479 <= code <= 1480
    case InvalidEscapeSequence => code == 1424
    case IntegrityConstraintViolation1 => code == 1 || 2290 <= code <= 2299
    case InvalidCursorState => 1001 <= code <= 1003 || (code == 1410 || code == 8006 || code == 2114 || code == 2117 || code == 2118 || code == 2122)
    case TransactionRollback => (code == 2091 || code == 2092)
    case SyntaxErrorOrAccessRuleViolation3 =>
      (code == 22 || code == 251 || code == 1031) || 900 <= code <= 999 || 1490 <= code <= 1493 || 1700 <= code <= 1799
      || 1900 <= code <= 2099 || 2140 <= code <= 2289 || 2420 <= code <= 2424 || 2450 <= code <= 2499
      || 3276 <= code <= 3299 || 4040 <= code <= 4059 || 4070 <= code <= 4099
    case WithCheckOptionViolation => code == 1402
    case SystemErrors =>
      370 <= code <= 429 || 600 <= code <= 899 || 6430 <= code <= 6449 || 7200 <= code <= 7999
      || 9700 <= code <= 9999
    case ResourceError => 18 <= code <= 35 || 50 <= code <= 68 || 2376 <= code <= 2399 || 4020 <= code <= 4039
    case MultiThreadedServerOrDetachedProcessError => 100 <= code <= 120 || 440 <= code <= 569
    case OracleXaAnd2TaskInterfaceError =>
      150 <= code <= 159 || code == 2128 || 2700 <= code <= 2899 || 3100 <= code <= 3199 || 6200 <= code <= 6249
    case ArchivalAndMediaRecoveryError => 200 <= code <= 369 || 1100 <= code <= 1250
    case PlSqlError => 6500 <= code <= 6599
    case SqlNetDriverError =>
      6000 <= code <= 6149 || 6250 <= code <= 6429 || 6600 <= code <= 6999 || 12100 <= code <= 12299
      || 12500 <= code <= 12599
    case LicensingError => 430 <= code <= 439
    case SqlConnectError => 570 <= code <= 599 || 7000 <= code <= 7199
    case SqlExecutePhaseError =>
      1000 <= code <= 1099 || 1400 <= code <= 1489 || 1495 <= code <= 1499 || 1500 <= code <= 1699
      || 2400 <= code <= 2419 || 2425 <= code <= 2449 || 4060 <= code <= 4069 || 8000 <= code <= 8190
      || 12000 <= code <= 12019 || 12300 <= code <= 12499 || 12700 <= code <= 21999
    case OutOfMemory => code == 2100
    case InconsistentCursorCacheMismatch => code == 2101
    case InconsistentCursorCacheNoEntry => code == 2102
    case InconsistentCursorCacheRefOutOfRange => code == 2103
    case InconsistentHostCacheNotAvailable => code == 2104
    case InconsistentCursorCacheNotFound => code == 2105
    case InconsistentCursorCacheInvalidNumber => code == 2106
    case ProgramTooOld => code == 2107
    case InvalidDescriptorPassed => code == 2108
    case InconsistentHostCacheRefOutOfRange => code == 2109
    case InconsistentHostCacheInvalidEntryType => code == 2110
    case HeapConsistencyError => code == 2111
    case UnableToOpenMessageFile => code == 2113
    case CodeGenerationInternalConsistencyFailed => code == 2115
    case ReentrantCodeGeneratorGaveInvalidContext => code == 2116
    case InvalidHstdefArgument => code == 2119
    case FirstAndSecondArgsToSqlrcnBothNull => code == 2120
    case InvalidOpenOrPrepare => code == 2122
    case ApplicationContextNotFound => code == 2123
    case ConnectionErrorNoErrorText => code == 2125
    case PrecompilerVersionMismatch => code == 2127
    case FetchedNumberOfBytesIsOdd => code == 2129
    case ExecToolsInterfaceNotAvailable => code == 2130
    case DebugEvents => 10000 <= code <= 10999
    case GeneralError => false
  }

  /** Some case of the table names the code. */
  predicate Covered(code: int)
  {
    exists s :: Listed(code, s)
  }

  /** Soundness: a code is only ever given a class the table lists it under. */
  lemma ClassifyIsListed(code: int)
    ensures Classify(code) != GeneralError ==> Listed(code, Classify(code))
  {
    if code < 100 {
      ListedBand0(code);
    } else if code < 500 {
      ListedBand1(code);
    } else if code < 1000 {
      ListedBand2(code);
    } else if code < 1400 {
      ListedBand3(code);
    } else if code < 1500 {
      ListedBand4(code);
    } else if code < 2000 {
      ListedBand5(code);
    } else if code < 2100 {
      ListedBand6(code);
    } else if code < 2112 {
      ListedBand7(code);
    } else if code < 2125 {
      ListedBand8(code);
    } else if code < 2140 {
      ListedBand9(code);
    } else if code < 2200 {
      ListedBand10(code);
    } else if code < 3000 {
      ListedBand11(code);
    } else if code < 5000 {
      ListedBand12(code);
    } else {
      ListedBand13(code);
    }
  }

  /** Only code 0 is a successful completion, and the invalid open-or-prepare class is never
      returned: its one code, 2122, is caught by the earlier invalid-cursor-state case. */
  lemma ClassifyBasics(code: int)
    ensures Classify(code) == SuccessfulCompletion <==> code == 0
    ensures Classify(code) != InvalidOpenOrPrepare
  {
    ClassifyIsListed(code);
    assert Classify(0) == SuccessfulCompletion;
    assert Classify(2122) == InvalidCursorState;
  }

  /** `ClassifyIsListed` on one band of codes, so that each proof meets only the cases of its band. */
  lemma ListedBand0(code: int)
    requires code < 100
    ensures Classify(code) != GeneralError ==> Listed(code, Classify(code))
  {
  }

  /** `ClassifyIsListed` on one band of codes, so that each proof meets only the cases of its band. */
  lemma ListedBand1(code: int)
    requires 100 <= code < 500
    ensures Classify(code) != GeneralError ==> Listed(code, Classify(code))
  {
  }

  /** `ClassifyIsListed` on one band of codes, so that each proof meets only the cases of its band. */
  lemma ListedBand2(code: int)
    requires 500 <= code < 1000
    ensures Classify(code) != GeneralError ==> Listed(code, Classify(code))
  {
  }

  /** `ClassifyIsListed` on one band of codes, so that each proof meets only the cases of its band. */
  lemma ListedBand3(code: int)
    requires 1000 <= code < 1400
    ensures Classify(code) != GeneralError ==> Listed(code, Classify(code))
  {
  }

  /** `ClassifyIsListed` on one band of codes, so that each proof meets only the cases of its band. */
  lemma ListedBand4(code: int)
    requires 1400 <= code < 1500
    ensures Classify(code) != GeneralError ==> Listed(code, Classify(code))
  {
  }

  /** `ClassifyIsListed` on one band of codes, so that each proof meets only the cases of its band. */
  lemma ListedBand5(code: int)
    requires 1500 <= code < 2000
    ensures Classify(code) != GeneralError ==> Listed(code, Classify(code))
  {
  }

  /** `ClassifyIsListed` on one band of codes, so that each proof meets only the cases of its band. */
  lemma ListedBand6(code: int)
    requires 2000 <= code < 2100
    ensures Classify(code) != GeneralError ==> Listed(code, Classify(code))
  {
  }

  /** `ClassifyIsListed` on one band of codes, so that each proof meets only the cases of its band. */
  lemma ListedBand7(code: int)
    requires 2100 <= code < 2112
    ensures Classify(code) != GeneralError ==> Listed(code, Classify(code))
  {
  }

  /** `ClassifyIsListed` on one band of codes, so that each proof meets only the cases of its band. */
  lemma ListedBand8(code: int)
    requires 2112 <= code < 2125
    ensures Classify(code) != GeneralError ==> Listed(code, Classify(code))
  {
  }

  /** `ClassifyIsListed` on one band of codes, so that each proof meets only the cases of its band. */
  lemma ListedBand9(code: int)
    requires 2125 <= code < 2140
    ensures Classify(code) != GeneralError ==> Listed(code, Classify(code))
  {
  }

  /** `ClassifyIsListed` on one band of codes, so that each proof meets only the cases of its band. */
  lemma ListedBand10(code: int)
    requires 2140 <= code < 2200
    ensures Classify(code) != GeneralError ==> Listed(code, Classify(code))
  {
  }

  /** `ClassifyIsListed` on one band of codes, so that each proof meets only the cases of its band. */
  lemma ListedBand11(code: int)
    requires 2200 <= code < 3000
    ensures Classify(code) != GeneralError ==> Listed(code, Classify(code))
  {
  }

  /** `ClassifyIsListed` on one band of codes, so that each proof meets only the cases of its band. */
  lemma ListedBand12(code: int)
    requires 3000 <= code < 5000
    ensures Classify(code) != GeneralError ==> Listed(code, Classify(code))
  {
  }

  /** `ClassifyIsListed` on one band of codes, so that each proof meets only the cases of its band. */
  lemma ListedBand13(code: int)
    requires 5000 <= code
    ensures Classify(code) != GeneralError ==> Listed(code, Classify(code))
  {
  }

  /** Totality of the table: every listed code gets a class of its own, and the default class is
      given exactly to the codes no case names (negative codes, 22000, 99999 among them). */
  lemma GeneralErrorIffUnlisted(code: int)
    ensures Classify(code) == GeneralError <==> !Covered(code)
  {
    if Classify(code) != GeneralError {
      ClassifyIsListed(code);
    } else {
      forall s | Listed(code, s) ensures false {
      }
    }
  }

  /** A code the table lists under one class only gets that class, whatever the order of cases. */
  lemma {:induction false} ListedOnce(code: int, s: SqlState)
    requires Listed(code, s)
    requires forall t :: Listed(code, t) ==> t == s
    ensures Classify(code) == s
  {
    GeneralErrorIffUnlisted(code);
    ClassifyIsListed(code);
  }

  lemma UnlistedExamples()
    ensures Classify(-1) == GeneralError && Classify(22000) == GeneralError && Classify(99999) == GeneralError
  {
    assert Classify(-1) == GeneralError;
    assert Classify(22000) == GeneralError;
  }

  // ---------------------------------------------------------------- boundaries and priority

  lemma DatetimeFieldOverflowRange(code: int)
    ensures Classify(code) == DatetimeFieldOverflow <==> 1800 <= code <= 1899
    ensures Classify(1799) == SyntaxErrorOrAccessRuleViolation3 && Classify(1900) == SyntaxErrorOrAccessRuleViolation3
  {
  }

  lemma DebugEventsRange(code: int)
    ensures Classify(code) == DebugEvents <==> 10000 <= code <= 10999
  {
  }

  lemma NoDataCodes(code: int)
    ensures Classify(code) == NoData <==> code == 1095 || code == 1403
  {
  }

  /** 2122 is listed twice; the earlier case wins, so the later class is never the answer. */
  lemma InvalidCursorStateCodes(code: int)
    ensures Classify(code) == InvalidCursorState
        <==> 1001 <= code <= 1003 || (code == 1410 || code == 8006 || code == 2114 || code == 2117 || code == 2118 || code == 2122)
    ensures Listed(2122, InvalidOpenOrPrepare) && Classify(2122) == InvalidCursorState
  {
  }

  /** 2091 and 2092 lie in the syntax range 1900-2099 but are rolled back transactions. */
  lemma TransactionRollbackBeatsSyntax()
    ensures Listed(2091, SyntaxErrorOrAccessRuleViolation3) && Listed(2092, SyntaxErrorOrAccessRuleViolation3)
    ensures Classify(2091) == TransactionRollback && Classify(2092) == TransactionRollback
  {
  }

  /** Inside 1000-1099 the exact cases listed earlier take priority over the execute-phase range. */
  lemma ExecutePhasePriority(code: int)
    requires 1000 <= code <= 1099
    ensures 1001 <= code <= 1003 ==> Classify(code) == InvalidCursorState
    ensures code == 1025 ==> Classify(code) == InvalidParamValue
    ensures code == 1031 ==> Classify(code) == SyntaxErrorOrAccessRuleViolation3
    ensures code == 1095 ==> Classify(code) == NoData
    ensures !(1001 <= code <= 1003) && code !in {1025, 1031, 1095} ==> Classify(code) == SqlExecutePhaseError
  {
  }

  /** 8006 is a cursor-state error; the rest of 8000-8190 belongs to the execute phase. */
  lemma CursorStateWithinExecuteRange(code: int)
    requires 8000 <= code <= 8190
    ensures Classify(code) == (if code == 8006 then InvalidCursorState else SqlExecutePhaseError)
  {
  }

  // ---------------------------------------------------------------- first match

  /** The rank of a class's case in the cascade, the default last. Every class has one case, so the
      ranks order the cases, and no two classes share one. */
  function CaseIndex(s: SqlState): (i: nat)
    ensures ClassAt(i) == s
  {
    match s
    case SuccessfulCompletion => 0
    case NoData => 1
    case InvalidDescriptorCount => 2
    case ConnectionDoesNotExist => 3
    case FeatureNotSupported => 4
    case CardinalityViolation => 5
    case StringDataRightTruncation => 6
    case IndicatorVariableNotSupplied => 7
    case NumericValueOutOfRange => 8
    case DatetimeFieldOverflow => 9
    case DivisionByZero => 10
    case InvalidEscapeChar => 11
    case IndicatorOverflow => 12
    case InvalidParamValue => 13
    case UnterminatedCString => 14
    case InvalidEscapeSequence => 15
    case IntegrityConstraintViolation1 => 16
    case InvalidCursorState => 17
    case TransactionRollback => 18
    case SyntaxErrorOrAccessRuleViolation3 => 19
    case WithCheckOptionViolation => 20
    case SystemErrors => 21
    case ResourceError => 22
    case MultiThreadedServerOrDetachedProcessError => 23
    case OracleXaAnd2TaskInterfaceError => 24
    case ArchivalAndMediaRecoveryError => 25
    case PlSqlError => 26
    case SqlNetDriverError => 27
    case LicensingError => 28
    case SqlConnectError => 29
    case SqlExecutePhaseError => 30
    case OutOfMemory => 31
    case InconsistentCursorCacheMismatch => 32
    case InconsistentCursorCacheNoEntry => 33
    case InconsistentCursorCacheRefOutOfRange => 34
    case InconsistentHostCacheNotAvailable => 35
    case InconsistentCursorCacheNotFound => 36
    case InconsistentCursorCacheInvalidNumber => 37
    case ProgramTooOld => 38
    case InvalidDescriptorPassed => 39
    case InconsistentHostCacheRefOutOfRange => 40
    case InconsistentHostCacheInvalidEntryType => 41
    case HeapConsistencyError => 42
    case UnableToOpenMessageFile => 43
    case CodeGenerationInternalConsistencyFailed => 44
    case ReentrantCodeGeneratorGaveInvalidContext => 45
    case InvalidHstdefArgument => 46
    case FirstAndSecondArgsToSqlrcnBothNull => 47
    case InvalidOpenOrPrepare => 48
    case ApplicationContextNotFound => 49
    case ConnectionErrorNoErrorText => 50
    case PrecompilerVersionMismatch => 51
    case FetchedNumberOfBytesIsOdd => 52
    case ExecToolsInterfaceNotAvailable => 53
    case DebugEvents => 54
    case GeneralError => 55
  }

  /** The class whose case has rank `i`. */
  function ClassAt(i: nat): SqlState
  {
    if i == 0 then SuccessfulCompletion
    else if i == 1 then NoData
    else if i == 2 then InvalidDescriptorCount
    else if i == 3 then ConnectionDoesNotExist
    else if i == 4 then FeatureNotSupported
    else if i == 5 then CardinalityViolation
    else if i == 6 then StringDataRightTruncation
    else if i == 7 then IndicatorVariableNotSupplied
    else if i == 8 then NumericValueOutOfRange
    else if i == 9 then DatetimeFieldOverflow
    else if i == 10 then DivisionByZero
    else if i == 11 then InvalidEscapeChar
    else if i == 12 then IndicatorOverflow
    else if i == 13 then InvalidParamValue
    else if i == 14 then UnterminatedCString
    else if i == 15 then InvalidEscapeSequence
    else if i == 16 then IntegrityConstraintViolation1
    else if i == 17 then InvalidCursorState
    else if i == 18 then TransactionRollback
    else if i == 19 then SyntaxErrorOrAccessRuleViolation3
    else if i == 20 then WithCheckOptionViolation
    else if i == 21 then SystemErrors
    else if i == 22 then ResourceError
    else if i == 23 then MultiThreadedServerOrDetachedProcessError
    else if i == 24 then OracleXaAnd2TaskInterfaceError
    else if i == 25 then ArchivalAndMediaRecoveryError
    else if i == 26 then PlSqlError
    else if i == 27 then SqlNetDriverError
    else if i == 28 then LicensingError
    else if i == 29 then SqlConnectError
    else if i == 30 then SqlExecutePhaseError
    else if i == 31 then OutOfMemory
    else if i == 32 then InconsistentCursorCacheMismatch
    else if i == 33 then InconsistentCursorCacheNoEntry
    else if i == 34 then InconsistentCursorCacheRefOutOfRange
    else if i == 35 then InconsistentHostCacheNotAvailable
    else if i == 36 then InconsistentCursorCacheNotFound
    else if i == 37 then InconsistentCursorCacheInvalidNumber
    else if i == 38 then ProgramTooOld
    else if i == 39 then InvalidDescriptorPassed
    else if i == 40 then InconsistentHostCacheRefOutOfRange
    else if i == 41 then InconsistentHostCacheInvalidEntryType
    else if i == 42 then HeapConsistencyError
    else if i == 43 then UnableToOpenMessageFile
    else if i == 44 then CodeGenerationInternalConsistencyFailed
    else if i == 45 then ReentrantCodeGeneratorGaveInvalidContext
    else if i == 46 then InvalidHstdefArgument
    else if i == 47 then FirstAndSecondArgsToSqlrcnBothNull
    else if i == 48 then InvalidOpenOrPrepare
    else if i == 49 then ApplicationContextNotFound
    else if i == 50 then ConnectionErrorNoErrorText
    else if i == 51 then PrecompilerVersionMismatch
    else if i == 52 then FetchedNumberOfBytesIsOdd
    else if i == 53 then ExecToolsInterfaceNotAvailable
    else if i == 54 then DebugEvents
    else GeneralError
  }

  /** No case ranked before the class `Classify` returns lists the code. */
  lemma EarlierCasesMiss(code: int)
    ensures forall j :: 0 <= j < CaseIndex(Classify(code)) ==> !Listed(code, ClassAt(j))
  {
    if code < 100 {
      EarlierCasesMissBand0(code);
    } else if code < 500 {
      EarlierCasesMissBand1(code);
    } else if code < 1000 {
      EarlierCasesMissBand2(code);
    } else if code < 1400 {
      EarlierCasesMissBand3(code);
    } else if code < 1500 {
      EarlierCasesMissBand4(code);
    } else if code < 2000 {
      EarlierCasesMissBand5(code);
    } else if code < 2100 {
      EarlierCasesMissBand6(code);
    } else if code < 2112 {
      EarlierCasesMissBand7(code);
    } else if code < 2125 {
      EarlierCasesMissBand8(code);
    } else if code < 2140 {
      EarlierCasesMissBand9(code);
    } else if code < 2200 {
      EarlierCasesMissBand10(code);
    } else if code < 3000 {
      EarlierCasesMissBand11(code);
    } else if code < 5000 {
      EarlierCasesMissBand12(code);
    } else {
      EarlierCasesMissBand13(code);
    }
  }

  /** `EarlierCasesMiss` on one band of codes. */
  lemma EarlierCasesMissBand0(code: int)
    requires code < 100
    ensures forall j :: 0 <= j < CaseIndex(Classify(code)) ==> !Listed(code, ClassAt(j))
  {
  }

  /** `EarlierCasesMiss` on one band of codes. */
  lemma EarlierCasesMissBand1(code: int)
    requires 100 <= code < 500
    ensures forall j :: 0 <= j < CaseIndex(Classify(code)) ==> !Listed(code, ClassAt(j))
  {
  }

  /** `EarlierCasesMiss` on one band of codes. */
  lemma EarlierCasesMissBand2(code: int)
    requires 500 <= code < 1000
    ensures forall j :: 0 <= j < CaseIndex(Classify(code)) ==> !Listed(code, ClassAt(j))
  {
  }

  /** `EarlierCasesMiss` on one band of codes. */
  lemma EarlierCasesMissBand3(code: int)
    requires 1000 <= code < 1400
    ensures forall j :: 0 <= j < CaseIndex(Classify(code)) ==> !Listed(code, ClassAt(j))
  {
  }

  /** `EarlierCasesMiss` on one band of codes. */
  lemma EarlierCasesMissBand4(code: int)
    requires 1400 <= code < 1500
    ensures forall j :: 0 <= j < CaseIndex(Classify(code)) ==> !Listed(code, ClassAt(j))
  {
  }

  /** `EarlierCasesMiss` on one band of codes. */
  lemma EarlierCasesMissBand5(code: int)
    requires 1500 <= code < 2000
    ensures forall j :: 0 <= j < CaseIndex(Classify(code)) ==> !Listed(code, ClassAt(j))
  {
  }

  /** `EarlierCasesMiss` on one band of codes. */
  lemma EarlierCasesMissBand6(code: int)
    requires 2000 <= code < 2100
    ensures forall j :: 0 <= j < CaseIndex(Classify(code)) ==> !Listed(code, ClassAt(j))
  {
  }

  /** `EarlierCasesMiss` on one band of codes. */
  lemma EarlierCasesMissBand7(code: int)
    requires 2100 <= code < 2112
    ensures forall j :: 0 <= j < CaseIndex(Classify(code)) ==> !Listed(code, ClassAt(j))
  {
  }

  /** `EarlierCasesMiss` on one band of codes. */
  lemma EarlierCasesMissBand8(code: int)
    requires 2112 <= code < 2125
    ensures forall j :: 0 <= j < CaseIndex(Classify(code)) ==> !Listed(code, ClassAt(j))
  {
  }

  /** `EarlierCasesMiss` on one band of codes. */
  lemma EarlierCasesMissBand9(code: int)
    requires 2125 <= code < 2140
    ensures forall j :: 0 <= j < CaseIndex(Classify(code)) ==> !Listed(code, ClassAt(j))
  {
  }

  /** `EarlierCasesMiss` on one band of codes. */
  lemma EarlierCasesMissBand10(code: int)
    requires 2140 <= code < 2200
    ensures forall j :: 0 <= j < CaseIndex(Classify(code)) ==> !Listed(code, ClassAt(j))
  {
  }

  /** `EarlierCasesMiss` on one band of codes. */
  lemma EarlierCasesMissBand11(code: int)
    requires 2200 <= code < 3000
    ensures forall j :: 0 <= j < CaseIndex(Classify(code)) ==> !Listed(code, ClassAt(j))
  {
  }

  /** `EarlierCasesMiss` on one band of codes. */
  lemma EarlierCasesMissBand12(code: int)
    requires 3000 <= code < 5000
    ensures forall j :: 0 <= j < CaseIndex(Classify(code)) ==> !Listed(code, ClassAt(j))
  {
  }

  /** `EarlierCasesMiss` on one band of codes. */
  lemma EarlierCasesMissBand13(code: int)
    requires 5000 <= code
    ensures forall j :: 0 <= j < CaseIndex(Classify(code)) ==> !Listed(code, ClassAt(j))
  {
  }

  /** The cascade is first-match: `Classify` gives the class of the earliest case that lists the
      code, and the default when none does. */
  lemma ClassifyIsFirstListed(code: int)
    ensures Classify(code) == GeneralError <==> !Covered(code)
    ensures Classify(code) != GeneralError ==> Listed(code, Classify(code))
    ensures forall j :: 0 <= j < CaseIndex(Classify(code)) ==> !Listed(code, ClassAt(j))
  {
    GeneralErrorIffUnlisted(code);
    ClassifyIsListed(code);
    EarlierCasesMiss(code);
  }

  // ---------------------------------------------------------------- the class text

  /** The five-character SQLSTATE of a class, for the two classes whose text this model fixes:
      success is '00000' and the syntax/access class is '42000'. */
  function Text(s: SqlState): (t: Option<string>)
    ensures t.Some? ==> |t.value| == 5 && forall i :: 0 <= i < 5 ==> IsDigit(t.value[i])
  {
    match s
    case SuccessfulCompletion => Some("00000")
    case SyntaxErrorOrAccessRuleViolation3 => Some("42000")
    case _ => None
  }

  lemma Code942IsSyntaxClass()
    ensures Classify(942) == SyntaxErrorOrAccessRuleViolation3 && Text(Classify(942)) == Some("42000")
    ensures Text(Classify(0)) == Some("00000")
  {
  }
}
