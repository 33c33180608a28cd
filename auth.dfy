/** The `requireAuth` middleware: a header presence gate in front of a handler. */
module Auth {
  import opened Wrappers

  /** What the middleware does: hand over to the next handler, or answer itself. */
  datatype Gate = Next | Reject(status: int, message: string)

  /**
   * `requireAuth`: the `x-replit-user-id` header must be present and
   * truthy (a non-empty string); its value is not checked further. On
   * rejection the answer is 401 and `next` is not called.
   */
  function RequireAuth(userId: Option<string>): (r: Gate)
    ensures r.Next? <==> userId.Some? && userId.value != ""
    ensures r.Reject? ==> r == Reject(401, "Authentication required")
  {
    if userId.None? || userId.value == "" then Reject(401, "Authentication required")
    else Next
  }

  /** Any two non-empty header values are treated alike. */
  lemma ValueNotValidated(a: string, b: string)
    requires a != "" && b != ""
    ensures RequireAuth(Some(a)) == RequireAuth(Some(b)) == Next
  {
  }
}
