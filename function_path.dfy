/** The query loop of `openai_process_query` as functions of the loop state: the output
    items of each response are walked in order; a text item sets the answer (the last
    one of a response decides), a function call has its arguments decoded, runs, and is
    appended with an output bearing its call id; a decoding failure or a ToolError
    raises out of the whole query. */
module FunctionPath {
  import opened Options
  import opened AnswerTags
  import opened Conversation

  /** The history a query starts from: the developer prompt, then the user's query. */
  function Seed(prompt: string, query: string): seq<Message> {
    [DeveloperMsg(prompt), UserMsg(query)]
  }

  function Start(prompt: string, query: string): QueryState {
    QueryState(0, [], Seed(prompt, query), 0)
  }

  /** `" ".join(parts)`. */
  function JoinWithSpaces(parts: seq<string>): string
    decreases |parts|
  {
    if parts == [] then ""
    else if |parts| == 1 then parts[0]
    else parts[0] + " " + JoinWithSpaces(parts[1..])
  }

  /** Joining two non-empty runs of parts puts one space between their joins. */
  lemma {:induction false} JoinConcat(a: seq<string>, b: seq<string>)
    requires a != [] && b != []
    ensures JoinWithSpaces(a + b) == JoinWithSpaces(a) + " " + JoinWithSpaces(b)
    decreases |a|
  {
    if |a| == 1 {
      assert (a + b)[1..] == b;
    } else {
      assert (a + b)[1..] == a[1..] + b;
      JoinConcat(a[1..], b);
    }
  }

  /** The effect of one output item. */
  function ItemStep(s: QueryState, item: OutputItem, decode: ArgumentDecoder, service: ToolService): QueryResult {
    match item
    case TextItem(texts) => Returned(s.(answer := FindAnswers(JoinWithSpaces(texts))))
    case CallItem(call) =>
      match decode(call.arguments)
      case None => Raised(ArgumentDecodeError(call.arguments), s)
      case Some(args) =>
        match service(s.toolCount, call.name, args)
        case ToolError(message) => Raised(ToolCallFailed(message), s)
        case ToolOk(_, rendered) =>
          Returned(s.(messages := s.messages + [FunctionCallMsg(call), FunctionCallOutputMsg(call.callId, rendered)],
                      toolCount := s.toolCount + 1))
  }

  /** `for tool_call in response.output`, from state `s`; walking items never changes
      the number of backend calls made. */
  function Items(s: QueryState, items: seq<OutputItem>, decode: ArgumentDecoder, service: ToolService): (r: QueryResult)
    decreases |items|
    ensures r.state.responses == s.responses
  {
    if items == [] then Returned(s)
    else
      match ItemStep(s, items[0], decode, service)
      case Raised(e, t) => Raised(e, t)
      case Returned(t) => Items(t, items[1..], decode, service)
  }

  /** An item that does not raise hands the walk on to the next item. */
  lemma ItemsStep(s: QueryState, items: seq<OutputItem>, decode: ArgumentDecoder, service: ToolService)
    requires items != [] && ItemStep(s, items[0], decode, service).Returned?
    ensures Items(s, items, decode, service) == Items(ItemStep(s, items[0], decode, service).state, items[1..], decode, service)
  {
  }

  /** One round: call the backend, count the call, walk its output items. */
  function Round(s: QueryState, tools: seq<ToolDescriptor>, respond: ResponsesBackend, decode: ArgumentDecoder, service: ToolService): QueryResult {
    Items(s.(responses := s.responses + 1), respond(s.responses, s.messages, tools), decode, service)
  }

  /** `while num_responses < timeout and not answer`, from state `s`. */
  function Loop(s: QueryState, timeout: int, tools: seq<ToolDescriptor>, respond: ResponsesBackend, decode: ArgumentDecoder, service: ToolService): QueryResult
    decreases timeout - s.responses
  {
    if s.responses < timeout && s.answer == [] then
      match Round(s, tools, respond, decode, service)
      case Raised(e, t) => Raised(e, t)
      case Returned(t) => Loop(t, timeout, tools, respond, decode, service)
    else Returned(s)
  }

  function Query(prompt: string, timeout: int, tools: seq<ToolDescriptor>, query: string, respond: ResponsesBackend, decode: ArgumentDecoder, service: ToolService): QueryResult {
    Loop(Start(prompt, query), timeout, tools, respond, decode, service)
  }

  // ------------------------------------------------------ shape of the history

  /** After the seed, the history is a run of pairs: a function-call item, then an output
      that carries the same call id. */
  predicate CallPairs(ms: seq<Message>)
    decreases |ms|
  {
    ms == [] ||
    (|ms| >= 2 && ms[0].FunctionCallMsg? && ms[1].FunctionCallOutputMsg? &&
     ms[1].callId == ms[0].call.callId && CallPairs(ms[2..]))
  }

  /** What every state of a function-calling query satisfies: the seed is still in
      front, the rest is call/output pairs, one pair per tool call counted. */
  ghost predicate Shaped(prompt: string, query: string, s: QueryState) {
    |s.messages| == 2 + 2 * s.toolCount && s.messages[..2] == Seed(prompt, query) &&
    CallPairs(s.messages[2..])
  }

  /** The function-call items among `items`, in order. */
  function CallsOf(items: seq<OutputItem>): seq<FunctionCallItem>
    decreases |items|
  {
    if items == [] then []
    else (if items[0].CallItem? then [items[0].call] else []) + CallsOf(items[1..])
  }

  /** The function calls recorded in a history, in order. */
  function CallMsgs(ms: seq<Message>): seq<FunctionCallItem>
    decreases |ms|
  {
    if ms == [] then []
    else (if ms[0].FunctionCallMsg? then [ms[0].call] else []) + CallMsgs(ms[1..])
  }

  /** Item `k` is the last text item of `items`. */
  ghost predicate IsLastText(items: seq<OutputItem>, k: int) {
    0 <= k < |items| && items[k].TextItem? && forall j :: k < j < |items| ==> items[j].CallItem?
  }

  lemma {:induction false} CallPairsAppend(ms: seq<Message>, call: FunctionCallItem, output: string)
    requires CallPairs(ms)
    ensures CallPairs(ms + [FunctionCallMsg(call), FunctionCallOutputMsg(call.callId, output)])
    decreases |ms|
  {
    var pair := [FunctionCallMsg(call), FunctionCallOutputMsg(call.callId, output)];
    if ms == [] {
      assert ms + pair == pair && pair[2..] == [];
    } else {
      assert (ms + pair)[2..] == ms[2..] + pair;
      CallPairsAppend(ms[2..], call, output);
    }
  }

  lemma {:induction false} CallMsgsConcat(a: seq<Message>, b: seq<Message>)
    ensures CallMsgs(a + b) == CallMsgs(a) + CallMsgs(b)
    decreases |a|
  {
    if a == [] {
      assert a + b == b;
    } else {
      var h: seq<FunctionCallItem> := if a[0].FunctionCallMsg? then [a[0].call] else [];
      assert (a + b)[0] == a[0];
      assert (a + b)[1..] == a[1..] + b;
      assert CallMsgs(a + b) == h + CallMsgs(a[1..] + b);
      CallMsgsConcat(a[1..], b);
      assert h + (CallMsgs(a[1..]) + CallMsgs(b)) == (h + CallMsgs(a[1..])) + CallMsgs(b);
    }
  }

  // ----------------------------------------------------------------- properties

  /** An output item keeps the history's shape; a text item appends nothing, a function
      call appends its pair with the tool's rendered result, and the state a raise reports is the state before the item. */
  lemma ItemKeepsShape(prompt: string, query: string, s: QueryState, item: OutputItem, decode: ArgumentDecoder, service: ToolService)
    requires Shaped(prompt, query, s)
    ensures Shaped(prompt, query, ItemStep(s, item, decode, service).state)
    ensures ItemStep(s, item, decode, service).Raised? ==> ItemStep(s, item, decode, service).state == s
    ensures item.TextItem? ==>
      ItemStep(s, item, decode, service).state.messages == s.messages &&
      ItemStep(s, item, decode, service).state.toolCount == s.toolCount
    ensures var r := ItemStep(s, item, decode, service);
      r.Returned? && item.CallItem? ==>
        decode(item.call.arguments).Some? &&
        service(s.toolCount, item.call.name, decode(item.call.arguments).value).ToolOk? &&
        r.state.toolCount == s.toolCount + 1 &&
        r.state.messages == s.messages + [FunctionCallMsg(item.call),
          FunctionCallOutputMsg(item.call.callId, service(s.toolCount, item.call.name, decode(item.call.arguments).value).rendered)]
    ensures CallMsgs(ItemStep(s, item, decode, service).state.messages) ==
      CallMsgs(s.messages) + (if ItemStep(s, item, decode, service).Returned? && item.CallItem? then [item.call] else [])
  {
    var r := ItemStep(s, item, decode, service);
    if r.Returned? && item.CallItem? {
      var rendered := service(s.toolCount, item.call.name, decode(item.call.arguments).value).rendered;
      var pair := [FunctionCallMsg(item.call), FunctionCallOutputMsg(item.call.callId, rendered)];
      assert r.state.messages == s.messages + pair;
      assert r.state.messages[2..] == s.messages[2..] + pair;
      assert r.state.messages[..2] == s.messages[..2];
      CallPairsAppend(s.messages[2..], item.call, pair[1].output);
      CallMsgsConcat(s.messages, pair);
      assert pair[1..][1..] == [];
      assert CallMsgs(pair[1..]) == [];
      assert CallMsgs(pair) == [item.call];
    }
  }

  /** Walking the items of a response keeps the history's shape and only appends to it. */
  lemma {:induction false} ItemsKeepShape(prompt: string, query: string, s: QueryState, items: seq<OutputItem>, decode: ArgumentDecoder, service: ToolService)
    requires Shaped(prompt, query, s)
    ensures Shaped(prompt, query, Items(s, items, decode, service).state)
    ensures s.messages <= Items(s, items, decode, service).state.messages
    decreases |items|
  {
    if items != [] {
      var r := ItemStep(s, items[0], decode, service);
      ItemKeepsShape(prompt, query, s, items[0], decode, service);
      if r.Returned? {
        assert s.messages <= r.state.messages;
        ItemsKeepShape(prompt, query, r.state, items[1..], decode, service);
      }
    }
  }

  /** The function calls a response adds to the history are exactly its function-call
      items, in the order the response lists them. */
  lemma {:induction false} ItemsRecordCalls(prompt: string, query: string, s: QueryState, items: seq<OutputItem>, decode: ArgumentDecoder, service: ToolService)
    requires Shaped(prompt, query, s)
    requires Items(s, items, decode, service).Returned?
    ensures CallMsgs(Items(s, items, decode, service).state.messages) == CallMsgs(s.messages) + CallsOf(items)
    decreases |items|
  {
    if items != [] {
      var r := ItemStep(s, items[0], decode, service);
      ItemKeepsShape(prompt, query, s, items[0], decode, service);
      ItemsRecordCalls(prompt, query, r.state, items[1..], decode, service);
      var h := if items[0].CallItem? then [items[0].call] else [];
      assert CallsOf(items) == h + CallsOf(items[1..]);
      assert CallMsgs(s.messages) + h + CallsOf(items[1..]) == CallMsgs(s.messages) + (h + CallsOf(items[1..]));
    }
  }

  /** When a response's items raise, they raise at a function-call item whose arguments
      do not decode or whose tool fails; the state reported is the one the items before
      it reached, so nothing of that call is appended. */
  lemma {:induction false} RaisedAt(s: QueryState, items: seq<OutputItem>, decode: ArgumentDecoder, service: ToolService) returns (k: nat)
    requires Items(s, items, decode, service).Raised?
    ensures k < |items| && items[k].CallItem?
    ensures Items(s, items[..k], decode, service) == Returned(Items(s, items, decode, service).state)
    ensures var call, t := items[k].call, Items(s, items, decode, service).state;
      match decode(call.arguments)
      case None => Items(s, items, decode, service).error == ArgumentDecodeError(call.arguments)
      case Some(args) =>
        service(t.toolCount, call.name, args).ToolError? &&
        Items(s, items, decode, service).error == ToolCallFailed(service(t.toolCount, call.name, args).message)
    decreases |items|
  {
    var r := ItemStep(s, items[0], decode, service);
    if r.Raised? {
      k := 0;
      assert items[..0] == [];
    } else {
      var k' := RaisedAt(r.state, items[1..], decode, service);
      k := k' + 1;
      assert items[..k][1..] == items[1..][..k'];
      assert items[1..][k'] == items[k];
    }
  }

  /** The answer a response's items leave is the one extracted from the joined texts of
      its last text item. */
  lemma {:induction false} LastTextDecides(s: QueryState, items: seq<OutputItem>, k: int, decode: ArgumentDecoder, service: ToolService)
    requires Items(s, items, decode, service).Returned? && IsLastText(items, k)
    ensures Items(s, items, decode, service).state.answer == FindAnswers(JoinWithSpaces(items[k].texts))
    decreases |items|
  {
    var t := ItemStep(s, items[0], decode, service).state;
    if k == 0 {
      NoTextKeepsAnswer(t, items[1..], decode, service);
    } else {
      assert items[1..][k - 1] == items[k];
      LastTextDecides(t, items[1..], k - 1, decode, service);
    }
  }

  /** Items without a text item leave the answer as it was. */
  lemma {:induction false} NoTextKeepsAnswer(s: QueryState, items: seq<OutputItem>, decode: ArgumentDecoder, service: ToolService)
    requires Items(s, items, decode, service).Returned?
    requires forall j :: 0 <= j < |items| ==> items[j].CallItem?
    ensures Items(s, items, decode, service).state.answer == s.answer
    decreases |items|
  {
    if items != [] {
      assert items[0].CallItem?;
      NoTextKeepsAnswer(ItemStep(s, items[0], decode, service).state, items[1..], decode, service);
    }
  }

  /** A response whose last text item holds no complete tag pair leaves no answer, even if
      an earlier text item held one, and the loop goes on to the next round. */
  lemma UntaggedTextResets(s: QueryState, timeout: int, tools: seq<ToolDescriptor>, respond: ResponsesBackend, decode: ArgumentDecoder, service: ToolService, k: int)
    requires s.responses < timeout && s.answer == []
    requires Round(s, tools, respond, decode, service).Returned?
    requires IsLastText(respond(s.responses, s.messages, tools), k)
    requires !HasPair(JoinWithSpaces(respond(s.responses, s.messages, tools)[k].texts))
    ensures Round(s, tools, respond, decode, service).state.answer == []
    ensures Loop(s, timeout, tools, respond, decode, service) ==
      Loop(Round(s, tools, respond, decode, service).state, timeout, tools, respond, decode, service)
  {
    var items := respond(s.responses, s.messages, tools);
    LastTextDecides(s.(responses := s.responses + 1), items, k, decode, service);
    NoAnswersIffNoPair(JoinWithSpaces(items[k].texts));
  }

  /** A round that leaves an answer is the last one. */
  lemma AnswerEndsLoop(s: QueryState, timeout: int, tools: seq<ToolDescriptor>, respond: ResponsesBackend, decode: ArgumentDecoder, service: ToolService)
    requires s.responses < timeout && s.answer == []
    requires Round(s, tools, respond, decode, service).Returned?
    requires Round(s, tools, respond, decode, service).state.answer != []
    ensures Loop(s, timeout, tools, respond, decode, service) == Round(s, tools, respond, decode, service)
  {
  }

  lemma {:induction false} LoopKeepsShape(prompt: string, query: string, s: QueryState, timeout: int, tools: seq<ToolDescriptor>, respond: ResponsesBackend, decode: ArgumentDecoder, service: ToolService)
    requires Shaped(prompt, query, s)
    ensures Shaped(prompt, query, Loop(s, timeout, tools, respond, decode, service).state)
    ensures s.messages <= Loop(s, timeout, tools, respond, decode, service).state.messages
    decreases timeout - s.responses
  {
    if s.responses < timeout && s.answer == [] {
      var s' := s.(responses := s.responses + 1);
      ItemsKeepShape(prompt, query, s', respond(s.responses, s.messages, tools), decode, service);
      var r := Round(s, tools, respond, decode, service);
      if r.Returned? {
        LoopKeepsShape(prompt, query, r.state, timeout, tools, respond, decode, service);
      }
    }
  }

  /** The history of a query, returned or as it stood when the query raised, starts with
      the developer prompt and the user's query, is only ever appended to, and after them
      holds only call/output pairs with matching call ids, one per tool call counted;
      text items are never appended. */
  lemma QueryHistory(prompt: string, timeout: int, tools: seq<ToolDescriptor>, query: string, respond: ResponsesBackend, decode: ArgumentDecoder, service: ToolService)
    ensures var t := Query(prompt, timeout, tools, query, respond, decode, service).state;
      Seed(prompt, query) <= t.messages && |t.messages| == 2 + 2 * t.toolCount && CallPairs(t.messages[2..])
  {
    var s := Start(prompt, query);
    assert s.messages[2..] == [];
    LoopKeepsShape(prompt, query, s, timeout, tools, respond, decode, service);
  }

  /** The loop never exceeds the budget; when it returns, the budget is spent or the last
      round left an answer, and a return without an answer has used the whole budget. */
  lemma {:induction false} LoopBudget(s: QueryState, timeout: int, tools: seq<ToolDescriptor>, respond: ResponsesBackend, decode: ArgumentDecoder, service: ToolService)
    ensures var r := Loop(s, timeout, tools, respond, decode, service);
      s.responses <= r.state.responses <= (if s.responses < timeout then timeout else s.responses) &&
      (r.Returned? ==> r.state.responses >= timeout || r.state.answer != []) &&
      (r.Returned? && r.state.answer == [] ==> r.state.responses == (if s.responses < timeout then timeout else s.responses))
    decreases timeout - s.responses
  {
    if s.responses < timeout && s.answer == [] {
      var r := Round(s, tools, respond, decode, service);
      if r.Returned? {
        LoopBudget(r.state, timeout, tools, respond, decode, service);
      }
    }
  }

  /** A query calls the backend at most `timeout` times, whether it returns or raises, and
      exactly that often when it returns no answer. */
  lemma QueryBudget(prompt: string, timeout: int, tools: seq<ToolDescriptor>, query: string, respond: ResponsesBackend, decode: ArgumentDecoder, service: ToolService)
    ensures Query(prompt, timeout, tools, query, respond, decode, service).state.responses <= Budget(timeout)
    ensures var r := Query(prompt, timeout, tools, query, respond, decode, service);
      r.Returned? && r.state.answer == [] ==> r.state.responses == Budget(timeout)
  {
    LoopBudget(Start(prompt, query), timeout, tools, respond, decode, service);
  }
}
