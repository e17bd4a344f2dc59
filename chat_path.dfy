/** The query loop of `ollama_process_query` as functions of the loop state: one round
    appends the chat backend's whole message and then one tool message per tool call,
    in order, and the loop runs rounds until the last reply's text held an answer or
    the budget is spent. */
module ChatPath {
  import opened AnswerTags
  import opened Conversation

  /** The history a query starts from: the system prompt, then the user's query. */
  function Seed(prompt: string, query: string): seq<Message> {
    [SystemMsg(prompt), UserMsg(query)]
  }

  function Start(prompt: string, query: string): QueryState {
    QueryState(0, [], Seed(prompt, query), 0)
  }

  /** The content of the tool message for an outcome: the result's first text, or the
      message of the ToolError, which is caught. */
  function ToolResultText(outcome: ToolOutcome): string {
    match outcome
    case ToolOk(text, _) => text
    case ToolError(message) => message
  }

  /** The tool messages of `calls`, run in order, the first being call number `first`. */
  function ToolMessages(calls: seq<ToolCall>, first: nat, service: ToolService): seq<Message>
    decreases |calls|
  {
    if calls == [] then []
    else
      var last := calls[|calls| - 1];
      ToolMessages(calls[..|calls| - 1], first, service)
        + [ToolResultMsg(ToolResultText(service(first + |calls| - 1, last.name, last.arguments)))]
  }

  /** One more tool call adds one result message, for that call's sequence number. */
  lemma ToolMessagesStep(calls: seq<ToolCall>, i: nat, first: nat, service: ToolService)
    requires i < |calls|
    ensures ToolMessages(calls[..i + 1], first, service)
         == ToolMessages(calls[..i], first, service)
            + [ToolResultMsg(ToolResultText(service(first + i, calls[i].name, calls[i].arguments)))]
  {
    assert calls[..i + 1][..i] == calls[..i];
  }

  /** One round: call the backend, extract the answer from the reply's text, append the
      reply, then run every tool call of the reply, answer or not. */
  function Round(s: QueryState, tools: seq<ToolDescriptor>, chat: ChatBackend, service: ToolService): QueryState {
    var reply := chat(s.responses, s.messages, tools);
    QueryState(
      s.responses + 1,
      FindAnswers(reply.content),
      s.messages + [AssistantMsg(reply)] + ToolMessages(reply.toolCalls, s.toolCount, service),
      s.toolCount + |reply.toolCalls|)
  }

  /** `while num_responses < timeout and not answer`, from state `s`. */
  function Loop(s: QueryState, timeout: int, tools: seq<ToolDescriptor>, chat: ChatBackend, service: ToolService): QueryState
    decreases timeout - s.responses
  {
    if s.responses < timeout && s.answer == [] then Loop(Round(s, tools, chat, service), timeout, tools, chat, service)
    else s
  }

  function Query(prompt: string, timeout: int, tools: seq<ToolDescriptor>, query: string, chat: ChatBackend, service: ToolService): QueryState {
    Loop(Start(prompt, query), timeout, tools, chat, service)
  }

  // ------------------------------------------------------ shape of the history

  /** The history after the seed is a run of rounds: an assistant message followed by
      exactly one tool message per tool call it carries. */
  predicate WellFormedRounds(ms: seq<Message>)
    decreases |ms|
  {
    ms == [] ||
    (ms[0].AssistantMsg? &&
     var n := |ms[0].reply.toolCalls|;
     n < |ms| && (forall i :: 1 <= i <= n ==> ms[i].ToolResultMsg?) && WellFormedRounds(ms[n + 1..]))
  }

  function CountAssistant(ms: seq<Message>): nat
    decreases |ms|
  {
    if ms == [] then 0 else (if ms[0].AssistantMsg? then 1 else 0) + CountAssistant(ms[1..])
  }

  function CountToolResults(ms: seq<Message>): nat
    decreases |ms|
  {
    if ms == [] then 0 else (if ms[0].ToolResultMsg? then 1 else 0) + CountToolResults(ms[1..])
  }

  /** What every state of a chat query satisfies: the seed is still in front, the rest
      is a run of rounds, one assistant message per backend call and one tool message
      per tool call. */
  ghost predicate Shaped(prompt: string, query: string, s: QueryState) {
    |s.messages| >= 2 && s.messages[..2] == Seed(prompt, query) &&
    WellFormedRounds(s.messages[2..]) &&
    CountAssistant(s.messages[2..]) == s.responses &&
    CountToolResults(s.messages[2..]) == s.toolCount
  }

  lemma {:induction false} CountsConcat(a: seq<Message>, b: seq<Message>)
    ensures CountAssistant(a + b) == CountAssistant(a) + CountAssistant(b)
    ensures CountToolResults(a + b) == CountToolResults(a) + CountToolResults(b)
    decreases |a|
  {
    if a == [] {
      assert a + b == b;
    } else {
      assert (a + b)[1..] == a[1..] + b;
      CountsConcat(a[1..], b);
    }
  }

  lemma {:induction false} CountsOfToolMessages(ms: seq<Message>)
    requires forall i :: 0 <= i < |ms| ==> ms[i].ToolResultMsg?
    ensures CountToolResults(ms) == |ms| && CountAssistant(ms) == 0
    decreases |ms|
  {
    if ms != [] {
      CountsOfToolMessages(ms[1..]);
    }
  }

  lemma {:induction false} WellFormedConcat(a: seq<Message>, b: seq<Message>)
    requires WellFormedRounds(a) && WellFormedRounds(b)
    ensures WellFormedRounds(a + b)
    decreases |a|
  {
    if a == [] {
      assert a + b == b;
    } else {
      var ab, n := a + b, |a[0].reply.toolCalls|;
      assert ab[0] == a[0];
      forall i | 1 <= i <= n
        ensures ab[i].ToolResultMsg?
      {
        assert ab[i] == a[i];
      }
      assert ab[n + 1..] == a[n + 1..] + b;
      WellFormedConcat(a[n + 1..], b);
    }
  }

  // ----------------------------------------------------------------- properties

  /** Tool calls run in the order the reply lists them: the i-th tool message is the
      outcome of the i-th call, made as call number `first + i`; a ToolError becomes a
      tool message holding the error's message. */
  lemma {:induction false} ToolMessagesInOrder(calls: seq<ToolCall>, first: nat, service: ToolService)
    ensures |ToolMessages(calls, first, service)| == |calls|
    ensures forall i :: 0 <= i < |calls| ==>
      ToolMessages(calls, first, service)[i] == ToolResultMsg(ToolResultText(service(first + i, calls[i].name, calls[i].arguments)))
    ensures forall i :: 0 <= i < |calls| && service(first + i, calls[i].name, calls[i].arguments).ToolError? ==>
      ToolMessages(calls, first, service)[i] == ToolResultMsg(service(first + i, calls[i].name, calls[i].arguments).message)
    decreases |calls|
  {
    if calls != [] {
      var init := calls[..|calls| - 1];
      ToolMessagesInOrder(init, first, service);
      assert forall i :: 0 <= i < |init| ==> init[i] == calls[i];
    }
  }

  /** The messages one round appends form one round of the history. */
  lemma RoundBlock(reply: ChatReply, first: nat, service: ToolService)
    ensures var block := [AssistantMsg(reply)] + ToolMessages(reply.toolCalls, first, service);
      WellFormedRounds(block) && CountAssistant(block) == 1 && CountToolResults(block) == |reply.toolCalls|
  {
    var tm := ToolMessages(reply.toolCalls, first, service);
    var block := [AssistantMsg(reply)] + tm;
    ToolMessagesInOrder(reply.toolCalls, first, service);
    assert forall i :: 0 <= i < |tm| ==> tm[i].ToolResultMsg?;
    CountsOfToolMessages(tm);
    assert block[1..] == tm;
    assert block[|tm| + 1..] == [];
    assert forall i :: 1 <= i <= |tm| ==> block[i] == tm[i - 1];
  }

  /** Appending one round keeps the history's shape. */
  lemma AppendRound(prompt: string, query: string, s: QueryState, block: seq<Message>, t: QueryState)
    requires Shaped(prompt, query, s)
    requires WellFormedRounds(block)
    requires t.messages == s.messages + block
    requires t.responses == s.responses + CountAssistant(block)
    requires t.toolCount == s.toolCount + CountToolResults(block)
    ensures Shaped(prompt, query, t)
  {
    assert t.messages[2..] == s.messages[2..] + block;
    assert t.messages[..2] == s.messages[..2];
    WellFormedConcat(s.messages[2..], block);
    CountsConcat(s.messages[2..], block);
  }

  /** A round keeps the history's shape: it adds one assistant message, and as many tool
      messages, and to the tool count, as the reply has tool calls. */
  lemma RoundKeepsShape(prompt: string, query: string, s: QueryState, tools: seq<ToolDescriptor>, chat: ChatBackend, service: ToolService)
    requires Shaped(prompt, query, s)
    ensures Shaped(prompt, query, Round(s, tools, chat, service))
    ensures s.messages <= Round(s, tools, chat, service).messages
  {
    var reply := chat(s.responses, s.messages, tools);
    var block := [AssistantMsg(reply)] + ToolMessages(reply.toolCalls, s.toolCount, service);
    RoundBlock(reply, s.toolCount, service);
    var t := Round(s, tools, chat, service);
    assert t.messages == s.messages + block;
    AppendRound(prompt, query, s, block, t);
  }

  lemma {:induction false} LoopKeepsShape(prompt: string, query: string, s: QueryState, timeout: int, tools: seq<ToolDescriptor>, chat: ChatBackend, service: ToolService)
    requires Shaped(prompt, query, s)
    ensures Shaped(prompt, query, Loop(s, timeout, tools, chat, service))
    ensures s.messages <= Loop(s, timeout, tools, chat, service).messages
    decreases timeout - s.responses
  {
    if s.responses < timeout && s.answer == [] {
      var t := Round(s, tools, chat, service);
      RoundKeepsShape(prompt, query, s, tools, chat, service);
      LoopKeepsShape(prompt, query, t, timeout, tools, chat, service);
    }
  }

  /** The history of a query starts with the system prompt and the user's query, is only
      ever appended to, and is a run of rounds: one assistant message per backend call
      and one tool message per tool call counted in `tool_count`. */
  lemma QueryHistory(prompt: string, timeout: int, tools: seq<ToolDescriptor>, query: string, chat: ChatBackend, service: ToolService)
    ensures var r := Query(prompt, timeout, tools, query, chat, service);
      Seed(prompt, query) <= r.messages &&
      WellFormedRounds(r.messages[2..]) &&
      CountAssistant(r.messages[2..]) == r.responses &&
      CountToolResults(r.messages[2..]) == r.toolCount
  {
    var s := Start(prompt, query);
    assert s.messages[2..] == [];
    LoopKeepsShape(prompt, query, s, timeout, tools, chat, service);
  }

  /** The loop stops once the budget is spent or the last reply held an answer, and a
      loop that ends without an answer has used up the whole budget. */
  lemma {:induction false} LoopBudget(s: QueryState, timeout: int, tools: seq<ToolDescriptor>, chat: ChatBackend, service: ToolService)
    ensures var r := Loop(s, timeout, tools, chat, service);
      s.responses <= r.responses <= (if s.responses < timeout then timeout else s.responses) &&
      (r.responses >= timeout || r.answer != []) &&
      (r.answer == [] ==> r.responses == (if s.responses < timeout then timeout else s.responses))
    decreases timeout - s.responses
  {
    if s.responses < timeout && s.answer == [] {
      LoopBudget(Round(s, tools, chat, service), timeout, tools, chat, service);
    }
  }

  /** A query calls the backend at most `timeout` times, and exactly that often when it
      returns no answer. */
  lemma QueryBudget(prompt: string, timeout: int, tools: seq<ToolDescriptor>, query: string, chat: ChatBackend, service: ToolService)
    ensures Query(prompt, timeout, tools, query, chat, service).responses <= Budget(timeout)
    ensures Query(prompt, timeout, tools, query, chat, service).answer == [] ==>
      Query(prompt, timeout, tools, query, chat, service).responses == Budget(timeout)
  {
    LoopBudget(Start(prompt, query), timeout, tools, chat, service);
  }

  /** A round whose reply holds an answer is the last one, and its tool calls still run. */
  lemma AnswerEndsLoop(s: QueryState, timeout: int, tools: seq<ToolDescriptor>, chat: ChatBackend, service: ToolService)
    requires s.responses < timeout && s.answer == []
    requires FindAnswers(chat(s.responses, s.messages, tools).content) != []
    ensures var reply := chat(s.responses, s.messages, tools);
      Loop(s, timeout, tools, chat, service) ==
        QueryState(s.responses + 1, FindAnswers(reply.content),
                   s.messages + [AssistantMsg(reply)] + ToolMessages(reply.toolCalls, s.toolCount, service),
                   s.toolCount + |reply.toolCalls|)
  {
  }
}
