/** The two response envelopes of server/utils: ApiResponses wraps a
    successful payload, ApiErrors an error. */
module Envelopes {
  import opened Wrappers

  /** The message an envelope carries when the caller gives none. */
  const DefaultMessage: string := "Success"

  /** `message || "Success"`: an empty message is replaced by the default,
      any other is kept verbatim. */
  function MessageOrDefault(message: string): (r: string)
    ensures r != []
    ensures message != [] ==> r == message
    ensures message == [] ==> r == DefaultMessage
  {
    if message == [] then DefaultMessage else message
  }

  class ApiResponses<T> {
    var statusCode: int
    var data: T
    var message: string
    var success: bool

    constructor (statusCode: int, data: T, message: string)
      ensures this.statusCode == statusCode && this.data == data
      ensures this.message == MessageOrDefault(message)
      ensures this.success <==> statusCode < 400
    {
      this.statusCode := statusCode;
      this.data := data;
      this.message := MessageOrDefault(message);
      this.success := statusCode < 400;
    }
  }

  /** An error envelope. `data` is always null and `success` always false,
      whatever the caller passes; `stack` is the caller's stack string when
      it is non-empty, and otherwise the trace the runtime captures at
      construction, which the model takes as the parameter `capturedTrace`. */
  class ApiErrors<E, D> {
    var statusCode: int
    var message: string
    var errors: seq<E>
    var success: bool
    var data: Option<D>
    var stack: string

    constructor (statusCode: int, message: string, errors: Option<seq<E>>, success: Option<bool>,
                 data: Option<D>, stack: Option<string>, capturedTrace: string)
      ensures this.statusCode == statusCode && this.message == message
      ensures errors.None? ==> this.errors == []
      ensures errors.Some? ==> this.errors == errors.value
      ensures !this.success
      ensures this.data.None?
      ensures stack.Some? && stack.value != [] ==> this.stack == stack.value
      ensures stack.None? || stack.value == [] ==> this.stack == capturedTrace
    {
      this.statusCode := statusCode;
      this.message := message;
      this.errors := match errors case None => [] case Some(es) => es;
      this.success := false;
      this.data := None;
      this.stack := if stack.Some? && stack.value != [] then stack.value else capturedTrace;
    }
  }
}
