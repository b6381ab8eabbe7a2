/**
  Failures of remote calls and their classification into the two messages a
  user may see. Only RPC errors are inspected, by their detail string; every
  other failure is reported as unknown.
 */
module Errors {

  /** A failure raised by a remote call: an RPC error carrying the provider's
      detail string, or any other exception. */
  datatype Error = Rpc(details: string) | NonRpc

  /** The outcome of a remote call: its result, or the failure it raised. */
  datatype Outcome<+T> = Ok(value: T) | Err(error: Error)

  const InvalidInstanceId: string := "Invalid instance id"
  const UnknownError: string := "An unknown error occured"

  /** `s.startswith(prefix)`, case-sensitive. */
  predicate StartsWith(s: string, prefix: string)
  {
    prefix <= s
  }

  /** `s.endswith(suffix)`, case-sensitive. */
  predicate EndsWith(s: string, suffix: string)
  {
    |suffix| <= |s| && s[|s| - |suffix|..] == suffix
  }

  /** The provider's ways of saying that an instance id does not exist:
      a detail that starts with "invalid instance id", or one that both starts
      with "The instance" and ends with "not found". */
  predicate ReportsInvalidId(details: string)
    ensures ReportsInvalidId(details) <==>
      (|details| >= 19 && details[..19] == "invalid instance id")
      || (|details| >= 12 && details[..12] == "The instance" && details[|details| - 9..] == "not found")
  {
    StartsWith(details, "invalid instance id")
      || (StartsWith(details, "The instance") && EndsWith(details, "not found"))
  }

  /** The user-facing message for a failure: one of exactly two strings, the
      invalid-id one only for an RPC error whose detail reports an invalid id. */
  function ErrorString(e: Error): (msg: string)
    ensures msg == InvalidInstanceId || msg == UnknownError
    ensures msg == InvalidInstanceId <==> e.Rpc? && ReportsInvalidId(e.details)
    ensures e.NonRpc? ==> msg == UnknownError
  {
    match e
    case NonRpc => UnknownError
    case Rpc(details) =>
      if ReportsInvalidId(details) then InvalidInstanceId else UnknownError
  }

  /** The two detail strings the provider emits for a missing instance are both
      recognised. */
  lemma ClassifiesProviderNotFound()
    ensures ErrorString(Rpc("invalid instance id: xyz")) == InvalidInstanceId
    ensures ErrorString(Rpc("The instance foo was not found")) == InvalidInstanceId
  {
  }

  /** Matching is case-sensitive, and the suffix test binds to the
      "The instance" prefix only: a detail that merely ends in "not found", or
      merely starts with "The instance", is an unknown error. */
  lemma ClassificationIsStrict()
    ensures ErrorString(Rpc("Invalid instance id")) == UnknownError
    ensures ErrorString(Rpc("the instance foo was not found")) == UnknownError
    ensures ErrorString(Rpc("Disk not found")) == UnknownError
    ensures ErrorString(Rpc("The instance is busy")) == UnknownError
  {
    assert "Invalid instance id"[0] != "invalid instance id"[0];
    assert "the instance foo was not found"[0] != "invalid instance id"[0];
    assert "the instance foo was not found"[0] != "The instance"[0];
    assert "Disk not found"[0] != "invalid instance id"[0];
    assert "Disk not found"[0] != "The instance"[0];
    assert "The instance is busy"[0] != "invalid instance id"[0];
    assert "The instance is busy"[19] != "not found"[8];
  }
}
