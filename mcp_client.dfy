/** The client object and its two query loops, written step by step as the source runs
    them and proved to compute what the ChatPath and FunctionPath specifications say. */
module Client {
  import opened Options
  import opened AnswerTags
  import opened Conversation
  import ChatPath
  import FunctionPath

  class MCPClient {
    /** The system (or developer) prompt every query starts with. */
    const prompt: string
    /** The response budget: backend calls allowed per query without an answer. */
    const timeout: int
    /** The tools the tool service listed when the client connected. */
    const tools: seq<ToolDescriptor>

    /** A client whose tool list has been fetched. */
    constructor (prompt: string, timeout: int, tools: seq<ToolDescriptor>)
      ensures this.prompt == prompt && this.timeout == timeout && this.tools == tools
    {
      this.prompt := prompt;
      this.timeout := timeout;
      this.tools := tools;
    }

    /** `ollama_process_query`: returns the answer list, the history and the tool count,
        and also how many backend calls were made. */
    method OllamaProcessQuery(query: string, chat: ChatBackend, service: ToolService)
      returns (answer: seq<string>, messages: seq<Message>, toolCount: nat, responses: nat)
      ensures QueryState(responses, answer, messages, toolCount) == ChatPath.Query(prompt, timeout, tools, query, chat, service)
      ensures responses <= Budget(timeout)
      ensures answer == [] ==> responses == Budget(timeout)
      ensures ChatPath.Seed(prompt, query) <= messages
      ensures ChatPath.WellFormedRounds(messages[2..])
      ensures ChatPath.CountAssistant(messages[2..]) == responses
      ensures ChatPath.CountToolResults(messages[2..]) == toolCount
    {
      ghost var q := ChatPath.Query(prompt, timeout, tools, query, chat, service);
      var numResponses: nat := 0;
      answer := [];
      messages := [SystemMsg(prompt), UserMsg(query)];
      toolCount := 0;
      while numResponses < timeout && answer == []
        invariant ChatPath.Loop(QueryState(numResponses, answer, messages, toolCount), timeout, tools, chat, service) == q
        decreases timeout - numResponses
      {
        ghost var before := QueryState(numResponses, answer, messages, toolCount);
        var reply := chat(numResponses, messages, tools);
        numResponses := numResponses + 1;
        answer := FindAnswers(reply.content);
        messages := messages + [AssistantMsg(reply)];
        var results;
        results, toolCount := RunToolCalls(reply.toolCalls, toolCount, service);
        messages := messages + results;
        assert QueryState(numResponses, answer, messages, toolCount) == ChatPath.Round(before, tools, chat, service);
      }
      responses := numResponses;
      ChatPath.QueryBudget(prompt, timeout, tools, query, chat, service);
      ChatPath.QueryHistory(prompt, timeout, tools, query, chat, service);
    }

    /** The tool-call loop of one chat round: each requested call is run in order,
        numbered from `first`, and its result text is appended as a tool message. */
    method RunToolCalls(calls: seq<ToolCall>, first: nat, service: ToolService)
      returns (results: seq<Message>, toolCount: nat)
      ensures results == ChatPath.ToolMessages(calls, first, service)
      ensures toolCount == first + |calls|
    {
      results := [];
      toolCount := first;
      for i := 0 to |calls|
        invariant toolCount == first + i
        invariant results == ChatPath.ToolMessages(calls[..i], first, service)
      {
        var call := calls[i];
        var seqNo := toolCount;
        toolCount := toolCount + 1;
        var outcome := service(seqNo, call.name, call.arguments);
        var result := ChatPath.ToolResultText(outcome);
        ChatPath.ToolMessagesStep(calls, i, first, service);
        results := results + [ToolResultMsg(result)];
      }
      assert calls[..|calls|] == calls;
    }

    /** `openai_process_query`: returns the answer list, the history and the tool count
        (and how many backend calls were made), or raises. */
    method OpenAIProcessQuery(query: string, respond: ResponsesBackend, decode: ArgumentDecoder, service: ToolService)
      returns (outcome: QueryResult)
      ensures outcome == FunctionPath.Query(prompt, timeout, tools, query, respond, decode, service)
      ensures outcome.state.responses <= Budget(timeout)
      ensures outcome.Returned? && outcome.state.answer == [] ==> outcome.state.responses == Budget(timeout)
      ensures FunctionPath.Seed(prompt, query) <= outcome.state.messages
      ensures |outcome.state.messages| == 2 + 2 * outcome.state.toolCount
      ensures FunctionPath.CallPairs(outcome.state.messages[2..])
    {
      var numResponses: nat := 0;
      var answer: seq<string> := [];
      FunctionPath.QueryBudget(prompt, timeout, tools, query, respond, decode, service);
      FunctionPath.QueryHistory(prompt, timeout, tools, query, respond, decode, service);
      var messages := [DeveloperMsg(prompt), UserMsg(query)];
      var toolCount: nat := 0;
      while numResponses < timeout && answer == []
        invariant FunctionPath.Loop(QueryState(numResponses, answer, messages, toolCount), timeout, tools, respond, decode, service)
               == FunctionPath.Query(prompt, timeout, tools, query, respond, decode, service)
        decreases timeout - numResponses
      {
        ghost var before := QueryState(numResponses, answer, messages, toolCount);
        var output := respond(numResponses, messages, tools);
        numResponses := numResponses + 1;
        for i := 0 to |output|
          invariant numResponses == before.responses + 1
          invariant FunctionPath.Items(QueryState(numResponses, answer, messages, toolCount), output[i..], decode, service)
                 == FunctionPath.Round(before, tools, respond, decode, service)
        {
          ghost var cur := QueryState(numResponses, answer, messages, toolCount);
          assert output[i..][1..] == output[i + 1..];
          match output[i] {
          case TextItem(texts) =>
            answer := FindAnswers(FunctionPath.JoinWithSpaces(texts));
          case CallItem(call) =>
            var args: Arguments;
            match decode(call.arguments) {
              case None =>
                outcome := Raised(ArgumentDecodeError(call.arguments), QueryState(numResponses, answer, messages, toolCount));
                return;
              case Some(decoded) =>
                args := decoded;
            }
            var result := service(toolCount, call.name, args);
            match result {
              case ToolError(message) =>
                outcome := Raised(ToolCallFailed(message), QueryState(numResponses, answer, messages, toolCount));
                return;
              case ToolOk(_, rendered) =>
                toolCount := toolCount + 1;
                messages := messages + [FunctionCallMsg(call), FunctionCallOutputMsg(call.callId, rendered)];
            }
          }
          FunctionPath.ItemsStep(cur, output[i..], decode, service);
        }
      }
      outcome := Returned(QueryState(numResponses, answer, messages, toolCount));
    }
  }
}
