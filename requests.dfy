/**
 * What a request sent through the `requests` library can come back with,
 * seen from the request engine. No traffic is modelled: each call is
 * replaced by one of these outcome values.
 */
module Requests {

  /** A response: its status code and its body decoded as text. */
  datatype Response = Response(status: int, text: string)

  /** Exceptions the library raises while sending; none of them is an HTTPError. */
  datatype TransportError = ReadTimeout | ConnectTimeout | ConnectionFailure

  /** One call of `requests.get`, `requests.post` or `Session.get`. */
  datatype Reply = Answered(resp: Response) | Raised(error: TransportError)

  /** `Response.raise_for_status()` raises an HTTPError exactly for the 4xx and 5xx codes. */
  predicate IsErrorStatus(status: int)
  {
    400 <= status < 600
  }

  /** A reply whose `raise_for_status()` raises. */
  predicate IsHttpError(reply: Reply)
  {
    reply.Answered? && IsErrorStatus(reply.resp.status)
  }

  /** A reply that passes `raise_for_status()`. */
  predicate IsOk(reply: Reply)
  {
    reply.Answered? && !IsErrorStatus(reply.resp.status)
  }

  /** What the engine raises to its caller. */
  datatype Failure =
    | HttpError(status: int)          // requests.HTTPError, from raise_for_status()
    | Transport(error: TransportError)  // a library exception passed through unchanged
    | UnboundResponse                 // UnboundLocalError: `resp` read although no attempt ran
    | LookupError                     // any other exception from a device property lookup
}
