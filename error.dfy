/** The library's error type (`JobError` in src/error.rs). */
module Errors {

  /**
   * `JobError`: one variant per failing Win32 call, each carrying the OS error code
   * that `io::Error::last_os_error()` captured right after the failure.
   */
  datatype JobError =
    | CreateFailed(code: int)
    | AssignFailed(code: int)
    | SetInfoFailed(code: int)
    | GetInfoFailed(code: int)

  /** The job operations that can fail; every query of a job shares `GetInfoFailed`. */
  datatype Operation = Create | Assign | SetInfo | GetInfo

  /** The error an operation reports when its Win32 call returned zero (null for `create`). */
  function FailureOf(op: Operation, code: int): (e: JobError)
    ensures e.code == code
    ensures OperationOf(e) == op
  {
    match op
    case Create => CreateFailed(code)
    case Assign => AssignFailed(code)
    case SetInfo => SetInfoFailed(code)
    case GetInfo => GetInfoFailed(code)
  }

  /** The operation an error value came from. */
  function OperationOf(e: JobError): Operation
  {
    match e
    case CreateFailed(_) => Create
    case AssignFailed(_) => Assign
    case SetInfoFailed(_) => SetInfo
    case GetInfoFailed(_) => GetInfo
  }

  /**
   * Every error value is the failure of exactly one operation: distinct operations never
   * report the same error, whatever the OS codes.
   */
  lemma FailuresDistinct(op1: Operation, c1: int, op2: Operation, c2: int)
    ensures FailureOf(op1, c1) == FailureOf(op2, c2) <==> op1 == op2 && c1 == c2
  {
  }

  /** Every `JobError` value is some operation's failure with the code it carries. */
  lemma EveryErrorIsAFailure(e: JobError)
    ensures FailureOf(OperationOf(e), e.code) == e
  {
  }
}
