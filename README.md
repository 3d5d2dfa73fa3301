# Agent loop, middleware and simulated tools — a Dafny model

This project models the logic that the agents chapter of the applied-LLMs labs
owns itself, once the language model and the agent framework are treated as
black boxes:

- **The manual ReAct loop** of `05-agents/samples/basic_agent_manual_loop.py`
  (module `ManualLoop`, file `manual_loop.dfy`). The loop starts from the user's
  query. It calls the model at most `max_iterations` (3) times and stops at the
  first response without tool calls. Otherwise it runs only the first requested
  tool call. It then appends an assistant message carrying the whole tool-call
  list, followed by a tool message answering that first call's id. The chat model
  and the calculator are oracles: `model: seq<Message> -> Response` and
  `tool: Args -> string`. `RunLoop` is the loop as a method over a local
  `seq<Message>`. `IsTrace` describes every message list the loop can build. The
  lemmas about `IsTrace` give the loop's ordering, shape, append-only and
  determinism properties.
- **The two middleware interceptors** and the failing `search` tool of
  `05-agents/code/04_agent_with_middleware.py` (module `MiddlewareAgent`). An
  interceptor is a function of the request and a `handler` continuation. A raised
  exception is an `Err` result. Each interceptor also returns the list of
  requests it handed to its handler. This makes "called exactly once, with the
  unmodified request" a statement about its result.
- **The simulated tools** `get_weather` and `search` of
  `05-agents/code/02_create_agent_multi_tool.py` (module `MultiToolAgent`).
  These are a case-sensitive table lookup and a first-match substring scan over
  an ordered table.

Shared pieces: `Wrappers` (Option, Result), `Text` (ASCII lower-casing and
Python's substring test `sub in s`, with its index characterisation), `Messages`
(HumanMessage, AIMessage, ToolMessage, tool calls, model responses).

The `search` tool of `05-agents/code/03_agent_with_memory.py` (lines 56-63) is the
same code as the one in `04_agent_with_middleware.py` and is covered by
`MiddlewareAgent.Search`.

The manual loop is simpler than a full agent runtime, and the model keeps it as
written:
- A full runtime appends the final answer to the conversation as an assistant
  message. This loop appends nothing for the final response (`RunLoop`'s
  `final.value == model(messages)`).
- A full runtime executes and answers every tool call of a batch. This loop
  executes and answers only `tool_calls[0]`. `SecondCallUnanswered` exhibits a
  conversation in which the second call of a batch has no reply.
- A full runtime reports truncation with a flag. This loop just leaves the
  `while` with `iteration == max_iterations + 1`. The model returns
  `final == None` in that case.

## Model

| member | source | states |
|---|---|---|
| `ManualLoop.RunLoop` | 05-agents/samples/basic_agent_manual_loop.py:60-96 | The loop builds a trace of the query. It ends with 1 <= iteration <= max+1 and 1 + 2*(iteration-1) messages. It makes at most max model calls and iteration-1 tool runs. It stops either on a response with no tool calls, obtained on the final message list and not appended, or after exactly max calls. |
| `ManualLoop.RunToBound` | 05-agents/samples/basic_agent_manual_loop.py:61-96 | With a model that always asks for a tool, the loop makes exactly max model calls and max tool runs, never one more, and ends with 1 + 2*max messages. |
| `ManualLoop.RunScript` | 05-agents/samples/basic_agent_manual_loop.py:60-96 | The script's run with max_iterations = 3: a trace of at most 7 messages after at most 3 model calls. It ends on a tool-free response obtained on the final list, or after exactly 3 calls with 7 messages. |
| `ManualLoop.TraceExtend` | 05-agents/samples/basic_agent_manual_loop.py:83-94 | A tool round appends exactly an AI message carrying the response's whole tool-call list, then a Tool message with the first call's output and id. The result is again a trace. |
| `ManualLoop.ToolRepliesAnswerFirstCall` | 05-agents/samples/basic_agent_manual_loop.py:74-93 | Every Tool message follows an AI message with at least one call, and it answers the id of that message's first call. |
| `ManualLoop.SecondCallUnanswered` | 05-agents/samples/basic_agent_manual_loop.py:74-93 | For a model that requests two calls at once, the loop's conversation holds no reply to the second call's id. |
| `ManualLoop.TracesAgree` | 05-agents/samples/basic_agent_manual_loop.py:64-96 | Two traces of equal length from the same query and oracles agree on every whole-round prefix. |
| `ManualLoop.TraceUnique` | 05-agents/samples/basic_agent_manual_loop.py:64-96 | The message list the loop builds is determined by its length: the loop is deterministic given its oracles. |
| `ManualLoop.TracePrefix` | 05-agents/samples/basic_agent_manual_loop.py:60-94 | Append-only: every whole-round prefix of a trace is a trace, starting with the original query. |
| `MultiToolAgent.GetWeather` | 05-agents/code/02_create_agent_multi_tool.py:61-76 | The result starts with "Current weather in {city}: " exactly when the city is one of the five table keys, and then ends with that city's entry. Any other city yields "Weather data unavailable for {city}". |
| `MultiToolAgent.WeatherEntriesNonEmpty` | 05-agents/code/02_create_agent_multi_tool.py:65-74 | Every weather entry is non-empty, so the truthiness test equals key membership. |
| `MultiToolAgent.WeatherCaseSensitive` | 05-agents/code/02_create_agent_multi_tool.py:73-76 | "Tokyo" gets its weather report and "tokyo" gets the unavailable text. |
| `MultiToolAgent.FirstMatch` | 05-agents/code/02_create_agent_multi_tool.py:91-93 | Returns the index of an entry whose key occurs in the text, with no earlier key occurring. It returns none exactly when no key occurs. |
| `MultiToolAgent.SearchAnswer` | 05-agents/code/02_create_agent_multi_tool.py:83-95 | The answer is the value of the first key, in table order, that occurs in the lower-cased query. With no such key it is the default text. |
| `MultiToolAgent.Search` | 05-agents/code/02_create_agent_multi_tool.py:89-95 | The result starts with the header quoting the original (not lower-cased) query, followed by the answer. |
| `MultiToolAgent.SearchCaseInsensitive` | 05-agents/code/02_create_agent_multi_tool.py:90-92 | Queries with equal lower-cased forms get the same answer. |
| `MultiToolAgent.SearchAnswerOfLowered` | 05-agents/code/02_create_agent_multi_tool.py:90-92 | A query and its lower-cased form get the same answer. |
| `MultiToolAgent.SearchFirstKeyWins` | 05-agents/code/02_create_agent_multi_tool.py:83-93 | Any query mentioning "langchain" gets the LangChain entry, whatever other keys it holds. |
| `MultiToolAgent.SearchShortQueryDefault` | 05-agents/code/02_create_agent_multi_tool.py:91-95 | A query shorter than every key gets the default text. |
| `MultiToolAgent.SearchKelvinSign` | 05-agents/code/02_create_agent_multi_tool.py:90-93 | "javascript framewor" + U+212A + "s" lower-cases to "javascript frameworks" and gets the JavaScript-frameworks entry. |
| `Text.MissingCharNotContained` | 05-agents/code/02_create_agent_multi_tool.py:92 | A text lacking some character of a key does not contain that key. |
| `Text.Lower` | 05-agents/code/02_create_agent_multi_tool.py:90 | Lower-casing keeps the length and maps each character by `LowerChar` (A-Z and the Kelvin sign to ASCII lower case). It leaves no upper-case ASCII letter and no Kelvin sign. |
| `Text.LowerIdempotent` | 05-agents/code/02_create_agent_multi_tool.py:90 | Lower-casing twice is lower-casing once. |
| `Text.ContainsIff` | 05-agents/code/02_create_agent_multi_tool.py:92 | The substring test `key in query_lower` holds exactly when the key occurs at some index of the text. |
| `MiddlewareAgent.Search` | 05-agents/code/04_agent_with_middleware.py:62-69 | Fails, with "Search service temporarily unavailable", if and only if the lower-cased query contains "error". Otherwise the result quotes the original query in its header and ends with "about {query}.". |
| `MiddlewareAgent.WrapModelCall` | 05-agents/code/04_agent_with_middleware.py:81-95 | Calls the handler exactly once, with the request unchanged, and returns its response unchanged, for every message count. |
| `MiddlewareAgent.WrapModelCallIgnoresThreshold` | 05-agents/code/04_agent_with_middleware.py:86-95 | The threshold affects only the logged decision. Any two thresholds give the same response and the same handler call. |
| `MiddlewareAgent.DefaultThresholdIsStrict` | 05-agents/code/04_agent_with_middleware.py:77-90 | The default threshold is 10 and the test is strict: 10 messages do not cross it, 11 do. |
| `MiddlewareAgent.FallbackContent` | 05-agents/code/04_agent_with_middleware.py:116-118 | The fallback text names the tool right after its fixed lead sentence and ends with the fixed "try a different approach" sentence. |
| `MiddlewareAgent.WrapToolCall` | 05-agents/code/04_agent_with_middleware.py:103-120 | Calls the handler exactly once. A success passes through verbatim. A raised `Exception` becomes a fallback message naming the tool ("unknown" if unnamed) and answering the request's call id ("" if absent). No `Exception` escapes. |
| `MiddlewareAgent.SearchBehindToolErrorMiddleware` | 05-agents/code/04_agent_with_middleware.py:62-120 | With the search tool behind the error middleware, a query containing "error" yields the "search" fallback and any other query yields the tool's own result. Both answer the call's id. |

## Left out

- The chat model (`ChatOpenAI`, `bind_tools`, `invoke`) and `create_agent`: these are network calls and library code. The model is an oracle function of the message list. The agent framework that would call the middleware is not part of this model.
- The `calculator` tools: they evaluate arbitrary Python expressions with `eval` and produce float results. They are an oracle from arguments to text.
- The `MemorySaver` checkpointer of `03_agent_with_memory.py`: thread persistence is done by the library, whose source is not part of this model.
- Tool registry errors (duplicate or unknown tools), argument schema validation, retries and cancellation: the repository does not implement these.
- Console output (`print`) is not modelled. The only logged decision with meaning, "would switch to a more capable model", is `WouldSwitchModel`.
- `Text.Lower`: models only the characters whose Python lower-case form is ASCII: A-Z and U+212A KELVIN SIGN (to 'k'). Other Unicode letters are kept as they are. Their lower-case forms are not ASCII, so they cannot complete any key. The exception is U+0130, whose lower-case form is 'i' followed by U+0307. It is not modelled, because it would change the length. It cannot complete a key either, since no key ends in 'i' and "error" has no 'i'.
- `ManualLoop.RunLoop`: message content is a string. The source's `str(response.content)` conversion of non-string content is not modelled.
- `ManualLoop.RunLoop`: the model and the tool are deterministic functions. A real model may answer the same conversation differently on two calls, so `TraceUnique` holds only relative to fixed oracles.
- `MiddlewareAgent.WrapToolCall`: does not model exceptions that derive from `BaseException` but not from `Exception` (KeyboardInterrupt, SystemExit, GeneratorExit). `except Exception` does not catch them, so in the source they propagate out of `wrap_tool_call`. The handler's `Result` type only carries `Exception`s.
- `MiddlewareAgent.WrapToolCall`: a `tool_call` dict whose `name` or `id` key is present but holds `None` is not distinguished from a present string. Presence is an `Option`.
