/**
  How the client turns a finished HTTP exchange into the settlement of the
  promise `rpc` returns: the status/body decision tree of the response's `end`
  handler. The exchange itself is not modelled; it is summarised by a `Reply`.
*/
module Responses {
  import opened Wrappers
  import opened JsValues

  /** Every error the client builds itself starts with this text. */
  const ErrorPrefix: string := "Qtum JSON-RPC: "

  /** The body a node sends with status 500 when its request queue is full. */
  const WorkQueueExceeded: string := "Work queue depth exceeded"

  /** The `code` attached to the queue-full error (HTTP 429 semantics). */
  const OverloadCode: int := 429

  /**
    What happens inside the `try` block: either something threw (the body is
    not JSON, or it parsed to `null` so reading `.error` failed), with the
    exception's `stack` and `message`; or the parsed value's `error` and
    `result` properties were read (`Undefined` when absent).
  */
  datatype TryOutcome =
    | Threw(stack: string, message: string)
    | Parsed(error: Value, result: Value)

  /** The transport's view of one exchange: status code, raw body, and the parse of that body. */
  datatype Reply = Reply(status: int, body: string, parsed: TryOutcome)

  /** A rejection reason: an `Error` the client built, or the server's error object as sent. */
  datatype Rejection =
    | ClientError(message: string, code: Option<int>)
    | ServerError(error: Value)

  datatype Settlement = Resolved(value: Value) | Rejected(reason: Rejection)

  /** The settlement together with the lines passed to `log.error`, in order. */
  datatype Classified = Classified(settlement: Settlement, errorLog: seq<string>)

  predicate IsOverload(status: int, body: string) {
    status == 500 && body == WorkQueueExceeded
  }

  /** The exchanges for which the body is handed to `JSON.parse`. */
  predicate ReachesParse(status: int, body: string) {
    status != 401 && status != 403 && !IsOverload(status, body)
  }

  predicate IsPrefix(p: string, s: string) {
    |p| <= |s| && s[..|p|] == p
  }

  /** The third log line of a failed parse: a fixed label followed by the status in decimal. */
  function StatusLine(status: int): (line: string)
    ensures |line| > 18 && line[..18] == "HTTP Status code: "
    ensures line[18..] == IntToDecimal(status)
  {
    "HTTP Status code: " + IntToDecimal(status)
  }

  /** The status line tells statuses apart. */
  lemma StatusLineInjective(s1: int, s2: int)
    requires StatusLine(s1) == StatusLine(s2)
    ensures s1 == s2
  {
    IntToDecimalInjective(s1, s2);
  }

  function Classify(status: int, body: string, parsed: TryOutcome): (c: Classified)
    // every error built by the client carries the prefix
    ensures c.settlement.Rejected? && c.settlement.reason.ClientError? ==>
              IsPrefix(ErrorPrefix, c.settlement.reason.message)
    // only the queue-full error carries a code, and it is 429
    ensures (c.settlement.Rejected? && c.settlement.reason.ClientError? && c.settlement.reason.code.Some?)
              <==> IsOverload(status, body)
    ensures c.settlement.Rejected? && c.settlement.reason.ClientError? && c.settlement.reason.code.Some? ==>
              c.settlement.reason.code.value == OverloadCode
    // the server's error object passes through unchanged exactly when it is truthy
    ensures (c.settlement.Rejected? && c.settlement.reason.ServerError?)
              <==> ReachesParse(status, body) && parsed.Parsed? && Truthy(parsed.error)
    ensures c.settlement.Rejected? && c.settlement.reason.ServerError? ==>
              c.settlement.reason.error == parsed.error
    // otherwise a successful parse resolves with `result`, even when it is absent
    ensures c.settlement.Resolved? <==>
              ReachesParse(status, body) && parsed.Parsed? && !Truthy(parsed.error)
    ensures c.settlement.Resolved? ==> c.settlement.value == parsed.result
    // only a failed parse is logged, always stack, body and status, in that order
    ensures c.errorLog != [] <==> ReachesParse(status, body) && parsed.Threw?
    ensures c.errorLog != [] ==> c.errorLog == [parsed.stack, body, StatusLine(status)]
  {
    if status == 401 then
      Classified(Rejected(ClientError(ErrorPrefix + "Connection Rejected: 401 Unauthorized", None)), [])
    else if status == 403 then
      Classified(Rejected(ClientError(ErrorPrefix + "Connection Rejected: 403 Forbidden", None)), [])
    else if status == 500 && body == WorkQueueExceeded then
      Classified(Rejected(ClientError(ErrorPrefix + body, Some(OverloadCode))), [])
    else
      match parsed
      case Parsed(error, result) =>
        if Truthy(error) then Classified(Rejected(ServerError(error)), [])
        else Classified(Resolved(result), [])
      case Threw(stack, message) =>
        Classified(
          Rejected(ClientError(ErrorPrefix + "Error Parsing JSON: " + message, None)),
          [stack, body, StatusLine(status)])
  }

  /** 401 and 403 reject with a fixed message whatever the body is and however it would parse. */
  lemma AuthRejectionIgnoresBody(status: int, body: string, parsed: TryOutcome)
    requires status == 401 || status == 403
    ensures Classify(status, body, parsed) == Classified(Rejected(ClientError(
              ErrorPrefix + (if status == 401 then "Connection Rejected: 401 Unauthorized"
                             else "Connection Rejected: 403 Forbidden"), None)), [])
  {
  }

  /** The queue-full body under status 500 rejects with the body as message and code 429. */
  lemma OverloadRejection(parsed: TryOutcome)
    ensures Classify(500, WorkQueueExceeded, parsed) ==
            Classified(Rejected(ClientError(ErrorPrefix + WorkQueueExceeded, Some(OverloadCode))), [])
  {
  }

  /** Status 500 with any other body is treated like any ordinary status. */
  lemma Status500OtherBodyFallsThrough(body: string, parsed: TryOutcome, other: int)
    requires body != WorkQueueExceeded
    requires other != 401 && other != 403 && other != 500
    ensures Classify(500, body, parsed).settlement == Classify(other, body, parsed).settlement
  {
  }

  /**
    Outside 401, 403 and 500 the status is never inspected: the settlement is
    the same for every status, and the status shows only in the third log
    line, which tells statuses apart.
  */
  lemma OrdinaryStatusesAlike(s1: int, s2: int, body: string, parsed: TryOutcome)
    requires s1 != 401 && s1 != 403 && s1 != 500
    requires s2 != 401 && s2 != 403 && s2 != 500
    ensures Classify(s1, body, parsed).settlement == Classify(s2, body, parsed).settlement
    ensures parsed.Threw? ==>
              (Classify(s1, body, parsed).errorLog == Classify(s2, body, parsed).errorLog <==> s1 == s2)
  {
    if parsed.Threw? && Classify(s1, body, parsed).errorLog == Classify(s2, body, parsed).errorLog {
      assert StatusLine(s1) == Classify(s1, body, parsed).errorLog[2];
      StatusLineInjective(s1, s2);
    }
  }

  /** A body that fails to parse rejects with the parser's message after logging three lines. */
  lemma ParseFailureRejection(status: int, body: string, stack: string, message: string)
    requires ReachesParse(status, body)
    ensures Classify(status, body, Threw(stack, message)) ==
            Classified(Rejected(ClientError(ErrorPrefix + "Error Parsing JSON: " + message, None)),
                       [stack, body, "HTTP Status code: " + IntToDecimal(status)])
  {
  }
}
