/**
 * What an async thunk (`createAsyncThunk`) dispatches, as the input of a slice's reducer:
 * the request has started, it returned a payload, or it was rejected with a message.
 * The HTTP call itself is not part of the model.
 */
module Thunks {
  import opened Wrappers

  /**
   * `Rejected` carries `err.response?.data?.message`, what the server said, if anything;
   * every thunk turns it into its `rejectWithValue` payload with `MessageOr`.
   */
  datatype Outcome<P> = Pending | Fulfilled(payload: P) | Rejected(serverMessage: Option<string>)

  /**
   * `message || fallback` on a server's optional message (`err.response?.data?.message` in the
   * thunks, `res.message` and `error.data?.message` on the login page): the message unless it is
   * missing or empty (both falsy), and the fixed text otherwise.
   */
  function MessageOr(serverMessage: Option<string>, fallback: string): (m: string)
    ensures serverMessage.Some? && serverMessage.value != "" ==> m == serverMessage.value
    ensures serverMessage.None? || serverMessage.value == "" ==> m == fallback
  {
    if serverMessage.Some? && serverMessage.value != "" then serverMessage.value else fallback
  }

  /** With a non-empty fallback, the stored error is never empty (so it is always truthy). */
  lemma MessageOrNonEmpty(serverMessage: Option<string>, fallback: string)
    requires fallback != ""
    ensures MessageOr(serverMessage, fallback) != ""
  {
  }
}
