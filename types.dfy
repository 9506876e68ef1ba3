/** Identifiers, instants and the Option wrapper shared by every module of the model. */
module Types {

  datatype Option<+T> = None | Some(value: T)

  /** Primary keys. The source uses UUIDs; only their identity matters here. */
  type UserId = nat
  type PropertyId = nat
  type BookingId = nat
  type InquiryId = nat

  /** An instant, as microseconds since a fixed epoch (a Python `datetime`). */
  type Time = int

  /** The HTTP method of the request a view handles. */
  datatype Method = Get | Post

  /**
   * What a view answers, without its page content or flash messages:
   * the redirects of the access checks, a 404, the in-view permission
   * redirect, the "invalid status" redirect, a page rendered without any
   * change, a redirect after which nothing changed, a completed change, and
   * the booking detail page with its three action flags.
   */
  datatype Response =
    | ToLogin
    | ToDashboard
    | NotFound
    | Forbidden
    | InvalidStatus
    | Rendered
    | Unchanged
    | Done
    | BookingPage(canApprove: bool, canCancel: bool, canComplete: bool)
}
