/** The hand-written ReAct loop of basic_agent_manual_loop.py: call the model on
    the conversation, stop at the first response without tool calls, otherwise run
    the FIRST requested tool call, append the assistant message and the tool reply,
    and go round again, at most `maxIterations` times.

    The chat model (`model_with_tools.invoke`) and the calculator tool
    (`calculator.invoke`) are oracles: a function from the message list to a
    response, and a function from a call's arguments to the tool's output text. */
module ManualLoop {
  import opened Wrappers
  import opened Messages

  /** The iteration bound the script uses. */
  const MaxIterations: nat := 3

  /** Round `k` of a conversation (0-based): the messages at 1+2k and 2+2k are the
      assistant message carrying the model's whole tool-call list and the tool
      reply to the first call in that list. */
  predicate RoundOk(msgs: seq<Message>, k: nat, model: seq<Message> -> Response, tool: Args -> string)
    requires 2 + 2 * k < |msgs|
  {
    var response := model(msgs[..1 + 2 * k]);
    response.toolCalls != [] &&
    msgs[1 + 2 * k] == AI(response.content, response.toolCalls) &&
    msgs[2 + 2 * k] == Tool(tool(response.toolCalls[0].args), response.toolCalls[0].id)
  }

  /** The message lists the loop can build from `query`: the user query, then
      whole rounds. */
  predicate IsTrace(query: string, msgs: seq<Message>, model: seq<Message> -> Response, tool: Args -> string) {
    |msgs| % 2 == 1 &&
    msgs[0] == Human(query) &&
    forall k: nat :: k < |msgs| / 2 ==> RoundOk(msgs, k, model, tool)
  }

  /** One tool round extends a trace by exactly an assistant message and a tool
      message, leaving every earlier entry in place. */
  lemma TraceExtend(query: string, msgs: seq<Message>, model: seq<Message> -> Response, tool: Args -> string)
    requires IsTrace(query, msgs, model, tool)
    requires model(msgs).toolCalls != []
    ensures var response := model(msgs);
            var call := response.toolCalls[0];
            IsTrace(query, msgs + [AI(response.content, response.toolCalls), Tool(tool(call.args), call.id)], model, tool)
  {
    var response := model(msgs);
    var call := response.toolCalls[0];
    var next := msgs + [AI(response.content, response.toolCalls), Tool(tool(call.args), call.id)];
    forall k: nat | k < |next| / 2
      ensures RoundOk(next, k, model, tool)
    {
      assert next[..1 + 2 * k] == msgs[..1 + 2 * k];
      if k < |msgs| / 2 {
        assert RoundOk(msgs, k, model, tool);
      }
    }
  }

  /** The loop of `main`. Returns the final message list, the final value of the
      iteration counter, how many times the model and the tool were invoked, and
      the response that ended the loop (None when the iteration bound was hit). */
  method RunLoop(query: string, maxIterations: nat, model: seq<Message> -> Response, tool: Args -> string)
    returns (messages: seq<Message>, iteration: nat, calls: nat, toolRuns: nat, final: Option<Response>)
    ensures IsTrace(query, messages, model, tool)
    ensures 1 <= iteration <= maxIterations + 1
    ensures |messages| == 1 + 2 * (iteration - 1)
    ensures toolRuns == iteration - 1
    ensures calls <= maxIterations
    ensures final.Some? ==> calls == iteration && final.value == model(messages) && final.value.toolCalls == []
    ensures final.None? ==> calls == maxIterations && iteration == maxIterations + 1
  {
    messages := [Human(query)];
    iteration := 1;
    calls, toolRuns := 0, 0;
    final := None;
    while iteration <= maxIterations
      invariant 1 <= iteration <= maxIterations + 1
      invariant calls == toolRuns == iteration - 1
      invariant |messages| == 1 + 2 * (iteration - 1)
      invariant IsTrace(query, messages, model, tool)
      invariant final == None
      decreases maxIterations + 1 - iteration
    {
      var response := model(messages);
      calls := calls + 1;
      if |response.toolCalls| == 0 {
        final := Some(response);
        break;
      }
      var toolCall := response.toolCalls[0];
      var toolResult := tool(toolCall.args);
      toolRuns := toolRuns + 1;
      TraceExtend(query, messages, model, tool);
      ghost var before := messages;
      messages := messages + [AI(response.content, response.toolCalls)];
      messages := messages + [Tool(toolResult, toolCall.id)];
      assert messages == before + [AI(response.content, response.toolCalls), Tool(toolResult, toolCall.id)];
      iteration := iteration + 1;
    }
  }

  /** With a model that always asks for a tool, the loop is cut off by the bound:
      exactly `maxIterations` model calls and as many tool runs, never one more. */
  method RunToBound(query: string, maxIterations: nat, model: seq<Message> -> Response, tool: Args -> string)
    returns (messages: seq<Message>, calls: nat, toolRuns: nat)
    requires forall msgs :: model(msgs).toolCalls != []
    ensures calls == toolRuns == maxIterations
    ensures |messages| == 1 + 2 * maxIterations
    ensures IsTrace(query, messages, model, tool)
  {
    var iteration, final;
    messages, iteration, calls, toolRuns, final := RunLoop(query, maxIterations, model, tool);
  }

  /** The script's run: the loop with `max_iterations = 3`, so at most three model
      calls and at most seven messages. */
  method RunScript(query: string, model: seq<Message> -> Response, tool: Args -> string)
    returns (messages: seq<Message>, calls: nat, final: Option<Response>)
    ensures IsTrace(query, messages, model, tool)
    ensures calls <= 3 && |messages| <= 7
    ensures final.Some? ==> final.value.toolCalls == [] && final.value == model(messages)
    ensures final.None? ==> calls == 3 && |messages| == 7
  {
    var iteration, toolRuns;
    messages, iteration, calls, toolRuns, final := RunLoop(query, MaxIterations, model, tool);
  }

  /** Every tool message answers the first tool call of the assistant message right
      before it, and that assistant message holds at least one call. */
  lemma {:induction false} ToolRepliesAnswerFirstCall(query: string, msgs: seq<Message>, model: seq<Message> -> Response, tool: Args -> string, j: nat)
    requires IsTrace(query, msgs, model, tool)
    requires 0 < j < |msgs| && msgs[j].Tool?
    ensures msgs[j - 1].AI? && msgs[j - 1].toolCalls != []
    ensures msgs[j].toolCallId == msgs[j - 1].toolCalls[0].id
  {
    // j is 1 + 2k (impossible: that entry is an assistant message) or 2 + 2k.
    var k: nat := (j - 1) / 2;
    assert RoundOk(msgs, k, model, tool);
  }

  /** Only `tool_calls[0]` is answered: with a model that asks for two calls at
      once, the conversation the loop builds holds no reply to the second call. */
  lemma SecondCallUnanswered(query: string, tool: Args -> string)
    ensures var first := ToolCall("calculator", map["expression" := "125 * 8"], "call_1");
            var second := ToolCall("calculator", map["expression" := "2 + 2"], "call_2");
            var model := (msgs: seq<Message>) => if |msgs| == 1 then Response("", [first, second]) else Response("1000", []);
            var msgs := [Human(query), AI("", [first, second]), Tool(tool(first.args), "call_1")];
            IsTrace(query, msgs, model, tool) &&
            model(msgs).toolCalls == [] &&
            forall j :: 0 <= j < |msgs| && msgs[j].Tool? ==> msgs[j].toolCallId != second.id
  {
  }

  /** Two traces of the same length from the same query and oracles agree on every
      whole-round prefix. */
  lemma {:induction false} TracesAgree(query: string, a: seq<Message>, b: seq<Message>, model: seq<Message> -> Response, tool: Args -> string, k: nat)
    requires IsTrace(query, a, model, tool) && IsTrace(query, b, model, tool)
    requires |a| == |b| && k <= |a| / 2
    ensures a[..1 + 2 * k] == b[..1 + 2 * k]
  {
    if k == 0 {
      assert a[..1] == [a[0]] && b[..1] == [b[0]];
    } else {
      TracesAgree(query, a, b, model, tool, k - 1);
      var n := 1 + 2 * (k - 1);
      assert RoundOk(a, k - 1, model, tool) && RoundOk(b, k - 1, model, tool);
      assert a[..n + 2] == a[..n] + [a[n], a[n + 1]];
      assert b[..n + 2] == b[..n] + [b[n], b[n + 1]];
    }
  }

  /** The loop is deterministic: the message list is fixed by its length. */
  lemma TraceUnique(query: string, a: seq<Message>, b: seq<Message>, model: seq<Message> -> Response, tool: Args -> string)
    requires IsTrace(query, a, model, tool) && IsTrace(query, b, model, tool)
    requires |a| == |b|
    ensures a == b
  {
    TracesAgree(query, a, b, model, tool, |a| / 2);
    assert a[..|a|] == a && b[..|b|] == b;
  }

  /** Append-only: every whole-round prefix of a trace is itself a trace, so each
      earlier state of the loop is a prefix of its final message list. */
  lemma TracePrefix(query: string, msgs: seq<Message>, model: seq<Message> -> Response, tool: Args -> string, n: nat)
    requires IsTrace(query, msgs, model, tool)
    requires n % 2 == 1 && n <= |msgs|
    ensures IsTrace(query, msgs[..n], model, tool)
  {
    var p := msgs[..n];
    forall k: nat | k < |p| / 2
      ensures RoundOk(p, k, model, tool)
    {
      assert p[..1 + 2 * k] == msgs[..1 + 2 * k];
      assert RoundOk(msgs, k, model, tool);
    }
  }
}
