/** What travels between the pages and the two routes: the multipart form a route
    reads, the JSON response it returns, and what a client's `fetch` makes of it. */
module Http {
  import opened Wrappers
  import opened Types
  import opened JsBuiltins

  /** The form fields a route reads; a missing field is None. */
  datatype Form = Form(audio: Option<Blob>, level: Option<string>, history: Option<string>)

  datatype Body =
    | ErrorBody(error: string)
    | ConversationBody(conversation: ConversationResponse)
    | FeedbackBody(feedback: FeedbackResponse)

  /** A JSON response with its HTTP status. */
  datatype Response = Response(status: int, body: Body)

  /** `response.ok`: a 2xx status. */
  predicate IsOk(r: Response) {
    200 <= r.status < 300
  }

  /** What a client ends up with after `fetch` and `response.json()`:
      a thrown value (None when it is not an `Error`, so it has no message),
      a non-OK response whose JSON may carry an `error` string, or the data. */
  datatype Fetched<T> = Threw(message: Option<string>) | NotOk(error: Option<string>) | Received(data: T)

  /** The message a client's handler stores for a failed request: a non-OK response
      is rethrown as `new Error(errorData.error || notOkFallback)`, and the catch
      block keeps an `Error`'s message or falls back to `unexpected`. */
  function FailureMessage<T>(f: Fetched<T>, notOkFallback: string, unexpected: string): (m: string)
    requires !f.Received?
    ensures f.NotOk? && Truthy(f.error) ==> m == f.error.value
    ensures f.NotOk? && !Truthy(f.error) ==> m == notOkFallback
    ensures f.Threw? && f.message.Some? ==> m == f.message.value
    ensures f.Threw? && f.message.None? ==> m == unexpected
    ensures f.NotOk? && notOkFallback != "" ==> m != ""
  {
    match f
    case NotOk(e) => OrElse(e, notOkFallback)
    case Threw(m) => if m.Some? then m.value else unexpected
  }

  /** A conversation route response as the chat component receives it. The route
      sends a conversation body with every OK status, so `Threw(None)` stands for
      an OK response with another body, which never happens; the code itself would
      read such a body without checking its shape. */
  function ReceiveConversation(r: Response): (f: Fetched<ConversationResponse>)
    ensures f.NotOk? <==> !IsOk(r)
    ensures f.NotOk? ==> f.error == (if r.body.ErrorBody? then Some(r.body.error) else None)
    ensures f.Received? <==> IsOk(r) && r.body.ConversationBody?
    ensures f.Received? ==> f.data == r.body.conversation
  {
    if !IsOk(r) then NotOk(if r.body.ErrorBody? then Some(r.body.error) else None)
    else if r.body.ConversationBody? then Received(r.body.conversation)
    else Threw(None)
  }

  /** An analyze route response as the page receives it; as above, `Threw(None)`
      stands for an OK response without a report, which the route never sends. */
  function ReceiveFeedback(r: Response): (f: Fetched<FeedbackResponse>)
    ensures f.NotOk? <==> !IsOk(r)
    ensures f.NotOk? ==> f.error == (if r.body.ErrorBody? then Some(r.body.error) else None)
    ensures f.Received? <==> IsOk(r) && r.body.FeedbackBody?
    ensures f.Received? ==> f.data == r.body.feedback
  {
    if !IsOk(r) then NotOk(if r.body.ErrorBody? then Some(r.body.error) else None)
    else if r.body.FeedbackBody? then Received(r.body.feedback)
    else Threw(None)
  }
}
