/** `errorInfo()` and `errorCode()`, which PdoOci8 (src/PdoOci8.php:219-255) and PdoOci8Statement
    (src/PdoOci8Statement.php:215-251) implement identically over the error record of their native
    connection or statement. */
module Errors {
  import opened Optional
  import opened Native
  import opened OracleSqlStateCode

  /** The three-element array `errorInfo()` returns: the SQLSTATE class, then the driver's code and
      message, both null when the driver holds no error. */
  datatype ErrorInfo = ErrorInfo(state: SqlState, driverCode: Option<int>, driverMessage: Option<string>)

  /** `errorInfo()` given what the native `getError()` reports. A missing code is cast to 0 before
      classification, so the no-error array starts with successful completion. */
  function InfoOf(error: Option<NativeError>): (r: ErrorInfo)
    ensures r.driverCode.None? <==> error.None?
    ensures r.driverMessage.None? <==> error.None?
    ensures error.Some? ==> r.driverCode == Some(error.value.code) && r.driverMessage == Some(error.value.message)
    ensures r.state == Classify(if error.Some? then error.value.code else 0)
    ensures r.state == SuccessfulCompletion <==> error.None? || error.value.code == 0
  {
    var code := if error.Some? then error.value.code else 0;
    ClassifyBasics(code);
    ErrorInfo(Classify(code),
              if error.Some? then Some(error.value.code) else None,
              if error.Some? then Some(error.value.message) else None)
  }

  /** `errorCode()`: null when the driver holds no error, else the first element of `errorInfo()`. */
  function CodeOf(error: Option<NativeError>): (r: Option<SqlState>)
    ensures r.None? <==> error.None?
    ensures r.Some? ==> r.value == InfoOf(error).state
  {
    if error.None? then None else Some(InfoOf(error).state)
  }

  /** Without a driver error, `errorInfo()` is `['00000', null, null]`. */
  lemma NoErrorInfo()
    ensures InfoOf(None) == ErrorInfo(SuccessfulCompletion, None, None)
    ensures Text(InfoOf(None).state) == Some("00000")
  {
  }

  /** ORA-00942 (table or view does not exist) is reported under SQLSTATE 42000. */
  lemma MissingTableInfo(message: string)
    ensures Text(InfoOf(Some(NativeError(942, message))).state) == Some("42000")
    ensures CodeOf(Some(NativeError(942, message))) == Some(SyntaxErrorOrAccessRuleViolation3)
  {
    Code942IsSyntaxClass();
  }

  /** A driver error whose code no case of the table lists is reported as a general error, and only
      such an error is. */
  lemma UnlistedErrorInfo(e: NativeError)
    ensures InfoOf(Some(e)).state == GeneralError <==> !Covered(e.code)
  {
    GeneralErrorIffUnlisted(e.code);
  }

  /** A driver error the table covers is reported under the class of the first case that lists
      its code. */
  lemma {:induction false} ListedErrorInfo(e: NativeError)
    requires Covered(e.code)
    ensures Listed(e.code, InfoOf(Some(e)).state)
    ensures forall j :: 0 <= j < CaseIndex(InfoOf(Some(e)).state) ==> !Listed(e.code, ClassAt(j))
  {
    ClassifyIsFirstListed(e.code);
  }
}
