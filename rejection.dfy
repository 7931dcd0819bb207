/**
 * The rejection envelope both slices build from a failed request in their
 * thunks: the HTTP status if a response arrived, and the server's string
 * `detail` or the operation's own default message.
 */
module Rejection {
  import opened Types

  /** True when the failure carries a response whose body has a string `detail`. */
  predicate HasServerDetail(err: Thrown) {
    && err.AxiosError? && err.response.Some?
    && err.response.value.detail.Some? && err.response.value.detail.value.StringDetail?
  }

  /** The envelope for `err`, with `fallback` as the message when the server sent none. */
  function ToRejectedPayload(err: Thrown, fallback: string): (r: RejectedPayload)
    ensures r.errors.None?
    ensures r.status.None? <==> !(err.AxiosError? && err.response.Some?)
    ensures r.status.Some? ==> r.status.value == err.response.value.status
    ensures HasServerDetail(err) ==> r.detail == err.response.value.detail.value.text
    ensures !HasServerDetail(err) ==> r.detail == fallback
  {
    match err
    case AxiosError(response) =>
      var status := if response.Some? then Some(response.value.status) else None;
      var detailRaw := if response.Some? then response.value.detail else None;
      var detail := if detailRaw.Some? && detailRaw.value.StringDetail? then detailRaw.value.text else fallback;
      RejectedPayload(status, detail, None)
    case _ =>
      RejectedPayload(None, fallback, None)
  }
}
