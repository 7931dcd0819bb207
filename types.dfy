/**
 * Shared value shapes of the file-manager front end: the optional value, the
 * four-valued operation status, the rejection envelope, the file record and
 * the public user record, plus the values a failed promise can carry.
 */
module Types {

  /** `T | null` (or an absent property) in the source. */
  datatype Option<+T> = None | Some(value: T) {
    /** The `??` operator: the value, or `fallback` when absent. */
    function OrElse(fallback: T): T {
      match this
      case Some(v) => v
      case None => fallback
    }
  }

  /** `Status`: the life cycle of one asynchronous operation class. */
  datatype Status = Idle | Loading | Succeeded | Failed

  /** Per-field validation messages sent by the server. */
  type FieldErrors = map<string, seq<string>>

  /** `RejectedPayload`: what a thunk hands to `rejectWithValue`. */
  datatype RejectedPayload = RejectedPayload(status: Option<int>, detail: string, errors: Option<FieldErrors>)

  /** `FileDTO`: one stored file as the server describes it. */
  datatype FileDTO = FileDTO(
    id: int,
    original_name: string,
    size_bytes: int,
    comment: Option<string>,
    uploaded: string,
    last_downloaded: Option<string>)

  /** `UserPublic`, restricted to its required fields. */
  datatype UserPublic = UserPublic(id: int, username: string, full_name: string, email: string, is_admin: bool)

  /** The value found under a `detail` key. */
  datatype DetailField = StringDetail(text: string) | NonStringDetail

  /** An HTTP response carried by a failed request: its status and the `detail` of its body, if any. */
  datatype HttpResponse = HttpResponse(status: int, detail: Option<DetailField>)

  /**
   * A value a promise can be rejected with: an axios error (with or without a
   * response), some other object (with or without a `detail` key), or a
   * non-object value.
   */
  datatype Thrown =
    | AxiosError(response: Option<HttpResponse>)
    | ObjectError(detail: Option<DetailField>)
    | NonObject

  /** How a promise settled. */
  datatype Settled<T> = Resolved(value: T) | Threw(reason: Thrown)
}
