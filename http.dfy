/** The JSON responses the Express handlers send, as a status code and a body. */
module Http {
  import opened Wrappers
  import opened Judge

  /** `passed` in a verdict report: a plain count (`submit`) or the text "k/n" (`run`). */
  datatype Tally = Count(n: nat) | OutOf(n: nat, total: nat)

  datatype Body =
    | Message(text: string)   // { message: text }
    | Error(text: string)     // { error: text }
    | Plain(text: string)     // a bare JSON string
    | ServerError             // { error: "Internal server error..." } from a caught exception
    | AcceptedReport(message: string, status: string, passed: Tally, runtime: Seconds, memory: nat)
    | FailedReport(message: string, status: string, passed: Tally, error: Option<string>,
                   description: string)

  datatype Response = Response(code: int, body: Body)
}
