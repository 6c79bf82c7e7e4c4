/** The shape of the routes' replies: a success body (status 200) or a refusal with a status,
    an optional machine-readable `code` and a message. */
module Http {
  import opened Common

  datatype Refusal = Refusal(status: nat, code: Option<string>, message: string)

  datatype Reply<T> = Success(body: T) | Refused(refusal: Refusal)

  /** The outcome of a route's guard chain: the arguments of the service call, or the first
      failed check's refusal. */
  datatype Gate<T> = Proceed(args: T) | Stop(refusal: Refusal)

  function Refuse<T>(status: nat, code: string, message: string): Reply<T> {
    Refused(Refusal(status, Some(code), message))
  }

  function Halt<T>(status: nat, code: string, message: string): Gate<T> {
    Stop(Refusal(status, Some(code), message))
  }

  /** `error.message || fallback`. */
  function MessageOr(e: Error, fallback: string): string {
    if e.message != "" then e.message else fallback
  }

  /** The status a reply is sent with. */
  function StatusOf<T>(r: Reply<T>): nat {
    if r.Success? then 200 else r.refusal.status
  }
}
