/** The exceptions that cross the components: the library's own error classes
    (`OPAConnectionError`, `PolicyEvaluationError`, `PolicyViolationError`) and
    the foreign ones the decision client sees from its HTTP transport. */
module Errors {
  import opened Basics
  import opened Json

  datatype Exception =
      /** Transport still failing after every retry. */
    | OpaConnectionError(message: string, url: Option<string>)
      /** The engine could not produce a decision. */
    | PolicyEvaluationError(message: string, path: Option<string>, inputData: Option<Json>, opaError: Option<string>)
      /** A denial: explicit, or an evaluation failure under fail-closed. */
    | PolicyViolationError(message: string, policyPath: string, decision: Json, context: Json)
      /** `raise_for_status` on a non-2xx response; `body` is the response body when it is JSON. */
    | HttpStatusError(status: int, body: Option<Json>)
      /** Transport could not connect. */
    | ConnectError(message: string)
      /** Transport timed out. */
    | TimeoutError(message: string)
      /** Any other exception, with its `str()`. */
    | OtherError(message: string)

  /** The transient failures that the retry loop retries. */
  predicate Transient(e: Exception)
  {
    e.ConnectError? || e.TimeoutError?
  }

  /** Python `str(e)`. The text httpx gives an HTTP status error is not part of
      this model, so that one case has no rendering. */
  function Str(e: Exception): Option<string>
  {
    match e
    case OpaConnectionError(m, _) => Some(m)
    case PolicyEvaluationError(m, _, _, _) => Some(m)
    case PolicyViolationError(m, _, _, _) => Some(m)
    case HttpStatusError(_, _) => None
    case ConnectError(m) => Some(m)
    case TimeoutError(m) => Some(m)
    case OtherError(m) => Some(m)
  }

  /** `str(e)` where its text is known, else the empty string. */
  function Text(e: Exception): string
  {
    match Str(e)
    case Some(m) => m
    case None => ""
  }
}
