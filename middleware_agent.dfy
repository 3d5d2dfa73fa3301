/** 04_agent_with_middleware.py: the failing `search` tool and the two middleware
    interceptors. Each interceptor is a function of the request and of a `handler`
    continuation; a Python exception raised by a handler is an `Err` result.

    Each interceptor also reports the requests it handed to its handler, in order,
    so that "the handler is called exactly once, with the request as received" is a
    statement about its result. */
module MiddlewareAgent {
  import opened Wrappers
  import opened Text
  import opened Messages

  /** A raised Python exception, by its message. */
  datatype Exception = Exception(message: string)

  const SearchFailure := "Search service temporarily unavailable"

  /** `search(query)`: raises when the lower-cased query contains "error",
      otherwise reports results quoting the query as given. */
  function Search(query: string): (r: Result<string, Exception>)
    ensures r.Err? <==> Contains(Lower(query), "error")
    ensures r.Err? ==> r.error == Exception(SearchFailure)
    ensures r.Ok? ==> IsPrefix("Search results for \"" + query + "\": ", r.value)
    ensures r.Ok? ==> IsSuffix("about " + query + ".", r.value)
  {
    if Contains(Lower(query), "error") then Err(Exception(SearchFailure))
    else
      var header := "Search results for \"" + query + "\": ";
      var tail := "about " + query + ".";
      ConcatParts(header, "Found relevant information " + tail);
      ConcatParts(header + "Found relevant information ", tail);
      Ok(header + "Found relevant information " + tail)
  }

  /** The result of an interceptor, with the requests it passed to its handler. */
  datatype Intercepted<R, Q> = Intercepted(result: R, handlerCalls: seq<Q>)

  /** A model request: the model to call and the conversation state's messages. */
  datatype ModelRequest = ModelRequest(model: string, messages: seq<Message>)

  const DefaultMessagesThreshold: int := 10

  /** `DynamicModelMiddleware`: its one setting is fixed when it is built. */
  datatype DynamicModelMiddleware = DynamicModelMiddleware(messagesThreshold: int)

  /** `DynamicModelMiddleware(messages_threshold=10)`. */
  function NewDynamicModelMiddleware(messagesThreshold: int := DefaultMessagesThreshold): DynamicModelMiddleware {
    DynamicModelMiddleware(messagesThreshold)
  }

  /** The logged decision: a conversation longer than the threshold would be sent
      to a more capable model. */
  predicate WouldSwitchModel(mw: DynamicModelMiddleware, request: ModelRequest) {
    |request.messages| > mw.messagesThreshold
  }

  /** `wrap_model_call`: counts the messages and, when `WouldSwitchModel` holds,
      only logs that it would switch models; either way it calls the handler on the
      request as received. */
  function WrapModelCall<R>(mw: DynamicModelMiddleware, request: ModelRequest, handler: ModelRequest -> R): (out: Intercepted<R, ModelRequest>)
    ensures out.handlerCalls == [request]
    ensures out.result == handler(request)
  {
    var forwarded := request;
    Intercepted(handler(forwarded), [forwarded])
  }

  /** The threshold only decides what is logged: middlewares with any two thresholds
      return the same response and make the same handler call. */
  lemma WrapModelCallIgnoresThreshold<R>(mw1: DynamicModelMiddleware, mw2: DynamicModelMiddleware, request: ModelRequest, handler: ModelRequest -> R)
    ensures WrapModelCall(mw1, request, handler) == WrapModelCall(mw2, request, handler)
  {
  }

  /** The default threshold is 10 and the test is strict: ten messages stay below it,
      eleven go over it. */
  lemma DefaultThresholdIsStrict(request: ModelRequest)
    ensures var mw := NewDynamicModelMiddleware();
            (|request.messages| == 10 ==> !WouldSwitchModel(mw, request)) &&
            (|request.messages| == 11 ==> WouldSwitchModel(mw, request))
  {
  }

  /** The call as a tool-call request carries it: `name` and `id` may be absent. */
  datatype ToolCallInfo = ToolCallInfo(name: Option<string>, args: Args, id: Option<string>)
  datatype ToolCallRequest = ToolCallRequest(toolCall: ToolCallInfo)

  datatype ToolMessage = ToolMessage(content: string, toolCallId: string)

  const FallbackLead := "I encountered an error while using the "
  const FallbackTail := " tool. Let me try a different approach to answer your question."

  /** The fallback text for a failed call of the tool named `toolName`. */
  function FallbackContent(toolName: string): (r: string)
    ensures OccursAt(r, toolName, |FallbackLead|)
    ensures IsPrefix(FallbackLead, r) && IsSuffix(FallbackTail, r)
  {
    FallbackLead + toolName + FallbackTail
  }

  /** `wrap_tool_call`: the handler's message when it returns; when it raises, a
      fallback message naming the tool ("unknown" if unnamed) and answering the
      request's call id ("" if absent). No `Exception` leaves it. */
  function WrapToolCall(request: ToolCallRequest, handler: ToolCallRequest -> Result<ToolMessage, Exception>): (out: Intercepted<ToolMessage, ToolCallRequest>)
    ensures out.handlerCalls == [request]
    ensures handler(request).Ok? ==> out.result == handler(request).value
    ensures handler(request).Err? ==> out.result.toolCallId == request.toolCall.id.GetOr("")
    ensures handler(request).Err? ==> out.result.content == FallbackContent(request.toolCall.name.GetOr("unknown"))
  {
    match handler(request)
    case Ok(message) => Intercepted(message, [request])
    case Err(_) =>
      var toolName := request.toolCall.name.GetOr("unknown");
      Intercepted(ToolMessage(FallbackContent(toolName), request.toolCall.id.GetOr("")), [request])
  }

  /** The search tool run behind `ToolErrorMiddleware`: a query mentioning "error"
      (in any ASCII case) yields the fallback for the "search" tool, answering the
      call's id; any other query yields the tool's own result. */
  lemma SearchBehindToolErrorMiddleware(query: string, id: string)
    ensures var request := ToolCallRequest(ToolCallInfo(Some("search"), map["query" := query], Some(id)));
            var handler := (r: ToolCallRequest) =>
              match Search(query)
              case Ok(text) => Ok(ToolMessage(text, id))
              case Err(e) => Err(e);
            var out := WrapToolCall(request, handler).result;
            out.toolCallId == id &&
            (Contains(Lower(query), "error") ==> out.content == FallbackContent("search")) &&
            (!Contains(Lower(query), "error") ==> out.content == Search(query).value)
  {
  }
}
