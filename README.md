# MCP client query loops, modelled in Dafny

`MCPClient` connects a language model to a set of MCP tools. It answers one query
with a loop. The loop sends the history to a model backend, runs the tool calls the
backend asks for, and appends everything to the history. It stops when a reply holds
an `<answer>…</answer>` pair or when `timeout` backend calls have been made. There are
two variants:

- `ollama_process_query` talks to a chat backend. Each reply's whole assistant message
  is appended. Then every tool call in it runs in order. A tool's `ToolError` becomes a
  tool message, and the loop carries on.
- `openai_process_query` talks to a function-calling backend. The output items of each
  response are walked in order. A text item sets `answer`. A function-call item has its
  arguments JSON-decoded, runs, and is appended with a `function_call_output` that
  carries the same call id. A decoding failure or a `ToolError` raises out of the query.

Both loops extract answers with `re.findall("<answer>(.*?)</answer>", text, re.DOTALL)`.

The model has these parts:

- `AnswerTags` (answer_tags.dfy) writes that extractor as a pure left-to-right
  scanner, `FindAnswers`, and proves what findall promises. The scanner is sound
  (`Split`: the text decomposes into gaps and matches) and unique
  (`SplitDeterminesMatches`: any such decomposition gives exactly those matches).
- `Conversation` (conversation.dfy) holds the data: messages, replies, tool calls,
  outcomes, and the loop state (`num_responses`, `answer`, the history, `tool_count`).
  Outside code is passed in as a parameter:
  - the chat backend and the function-calling backend: functions of the round number,
    the history and the tool list;
  - the tool service: a function of the number of earlier tool calls in the query, the
    tool name and the arguments;
  - `json.loads`: a partial decoder returning `Option`.
- `ChatPath` (chat_path.dfy) and `FunctionPath` (function_path.dfy) state each loop as
  functions of the loop state: one round, the loop and the whole query. Next to them
  are the lemmas about the budget, the history and the answer.
- `Client` (mcp_client.dfy) is the class `MCPClient`. Its two query methods run the
  loops step by step, with `while` and `for` loops as the source does. Each is proved
  to compute what the matching specification function says, and its contract repeats
  the main properties.
- `Scenarios` (scenarios.dfy) works through example texts and scripted runs.

Three behaviours of the code are easy to miss, and the model keeps them:

- In the chat path, a round whose reply holds an answer still runs all its tool calls
  and appends their results before the loop stops
  (utils/ollama_mcp_client.py:160-175).
- The result is the whole findall list, not only its first match.
- In the chat path the assistant message is appended in every round, whether or not
  it has tool calls (utils/ollama_mcp_client.py:161).

## Model

| member | source | states |
|---|---|---|
| Client.MCPClient.constructor | utils/ollama_mcp_client.py:37-38 | the client keeps the prompt, the response budget and the tool list it is given |
| Client.MCPClient.OllamaProcessQuery | utils/ollama_mcp_client.py:113-178 | the loop returns the state `ChatPath.Query` defines; at most `timeout` backend calls, and exactly that many when the answer list is empty; the history starts with the system prompt and the query, then holds one assistant message per backend call and one tool message per tool call counted |
| Client.MCPClient.RunToolCalls | utils/ollama_mcp_client.py:162-175 | the tool calls of one reply run in order; the messages appended are `ChatPath.ToolMessages` of the calls, and the tool count rises by the number of calls, failed ones included |
| Client.MCPClient.OpenAIProcessQuery | utils/ollama_mcp_client.py:57-111 | the loop returns or raises as `FunctionPath.Query` defines; at most `timeout` backend calls, and exactly that many when it returns with no answer; the history starts with the developer prompt and the query, then holds only call/output pairs with matching call ids, two messages per tool call counted |
| AnswerTags.IndexOf | utils/ollama_mcp_client.py:160 | finds the first occurrence of a tag: the result exists iff the tag occurs, the tag is at that position, and no earlier occurrence exists |
| AnswerTags.FindAnswers | utils/ollama_mcp_client.py:160 | the answer extractor as a left-to-right scan; what it returns is characterised by `Split` (its matches come from a decomposition of the text into gaps and nearest-tag matches), `SplitDeterminesMatches` (that decomposition fixes the result), `NoAnswersIffNoPair` and `MatchFirst` |
| AnswerTags.Split | utils/ollama_mcp_client.py:160 | the matches read off any text come from a decomposition into gaps and tagged matches, in order and without overlap; no match holds a closing tag (each ends at the nearest one); no gap before a match holds an opening tag (each starts at the leftmost one); the text after the last match holds no complete pair |
| AnswerTags.SplitDeterminesMatches | utils/ollama_mcp_client.py:94 | any such decomposition determines the result: the scanner returns exactly its matches |
| AnswerTags.NoAnswersIffNoPair | utils/ollama_mcp_client.py:94 | the result is empty if and only if the text holds no opening tag followed somewhere by a closing tag |
| AnswerTags.MatchFirst | utils/ollama_mcp_client.py:160 | text that starts with an opening tag yields first the text up to the nearest closing tag, and the scan resumes after that closing tag |
| ChatPath.ToolResultText | utils/ollama_mcp_client.py:166-169 | the content of a tool message: the outcome's text when the tool succeeds, the error's message when it raises `ToolError`; used by `ToolMessagesInOrder` |
| ChatPath.ToolMessages | utils/ollama_mcp_client.py:163-175 | the tool messages of one reply's calls; `ToolMessagesInOrder` states that there is one per call, in order, each holding the outcome of call number `first + i` |
| ChatPath.Round | utils/ollama_mcp_client.py:141-175 | one round of the chat loop; `RoundBlock` states what it appends (the assistant message, then one tool message per tool call), `RoundKeepsShape` that it counts one backend call and one tool call per tool message and keeps the history's shape |
| ChatPath.Loop | utils/ollama_mcp_client.py:140 | the chat loop from a state: rounds while the budget lasts and there is no answer; `LoopBudget`, `LoopKeepsShape` and `AnswerEndsLoop` state when it stops and what it keeps |
| ChatPath.Query | utils/ollama_mcp_client.py:113-178 | the whole chat query from the system prompt and the query; `QueryBudget` and `QueryHistory` state its budget and its history, and `OllamaProcessQuery` is proved to compute it |
| ChatPath.ToolMessagesInOrder | utils/ollama_mcp_client.py:163-175 | one tool message per tool call, in the reply's order; the i-th holds the outcome of the i-th call, made as call number `first + i`; a `ToolError` becomes a tool message holding the error's message |
| ChatPath.RoundBlock | utils/ollama_mcp_client.py:161-175 | what one round appends is one assistant message followed by exactly one tool message per tool call of the reply |
| ChatPath.RoundKeepsShape | utils/ollama_mcp_client.py:147-175 | a round only appends to the history and keeps it a run of rounds; the counts of assistant and tool messages stay equal to `num_responses` and `tool_count` |
| ChatPath.LoopKeepsShape | utils/ollama_mcp_client.py:140-175 | the loop only appends to the history and keeps the same shape |
| ChatPath.QueryHistory | utils/ollama_mcp_client.py:115-175 | a query's history begins with the system prompt and the query, and after them is a run of rounds: one assistant message per backend call and one tool message per tool call counted |
| ChatPath.LoopBudget | utils/ollama_mcp_client.py:134-147 | the loop never goes past the budget; it ends with the budget spent or an answer; when it ends without an answer, the budget is spent |
| ChatPath.QueryBudget | utils/ollama_mcp_client.py:134-147 | a query makes at most `timeout` backend calls (none when `timeout` is below one), and exactly that many when its answer list is empty |
| ChatPath.AnswerEndsLoop | utils/ollama_mcp_client.py:160-175 | the round whose reply holds an answer is the last one, and its tool calls still run and are appended |
| FunctionPath.JoinWithSpaces | utils/ollama_mcp_client.py:93 | the texts of an item's content parts joined with single spaces; `JoinConcat` states that joining two non-empty runs puts one space between their joins |
| FunctionPath.JoinConcat | utils/ollama_mcp_client.py:93 | joining a concatenation of two non-empty runs of parts is the join of the first, a space, and the join of the second |
| FunctionPath.ItemStep | utils/ollama_mcp_client.py:92-107 | the effect of one output item; `ItemKeepsShape` states what a text item, a successful call and a raise do to the state |
| FunctionPath.Items | utils/ollama_mcp_client.py:91-107 | walking a response's output items never changes the number of backend calls made |
| FunctionPath.ItemKeepsShape | utils/ollama_mcp_client.py:92-107 | a text item appends nothing and counts no tool call; a call item that succeeds has arguments that decode and a tool that returns normally, appends exactly its call and an output with the same call id holding the rendered result of calling the tool on the decoded arguments as call number `tool_count`, and counts one tool call; a raise reports the state from before the item |
| FunctionPath.ItemsKeepShape | utils/ollama_mcp_client.py:91-107 | walking the items only appends to the history and keeps it a run of call/output pairs, one per tool call counted |
| FunctionPath.ItemsRecordCalls | utils/ollama_mcp_client.py:97-107 | the function calls a response adds to the history are exactly its function-call items, in order |
| FunctionPath.Round | utils/ollama_mcp_client.py:83-107 | one round of the function-calling loop: one backend call, then the walk of its output items; `AnswerEndsLoop` and `UntaggedTextResets` state how its answer decides the loop |
| FunctionPath.Loop | utils/ollama_mcp_client.py:82 | the function-calling loop from a state, stopping at a raise; `LoopBudget` and `LoopKeepsShape` state when it stops and what it keeps |
| FunctionPath.Query | utils/ollama_mcp_client.py:57-111 | the whole function-calling query from the developer prompt and the query; `QueryBudget` and `QueryHistory` state its budget and its history, and `OpenAIProcessQuery` is proved to compute it |
| FunctionPath.RaisedAt | utils/ollama_mcp_client.py:97-101 | a raising walk stops at a function-call item whose arguments do not decode (decoding error) or whose tool returns `ToolError` (that error); the state it reports is the one the earlier items reached, so nothing of that call is appended or counted |
| FunctionPath.LastTextDecides | utils/ollama_mcp_client.py:91-95 | after a response, the answer is the one extracted from the space-joined texts of its last text item |
| FunctionPath.NoTextKeepsAnswer | utils/ollama_mcp_client.py:91-95 | function-call items leave the answer as it was |
| FunctionPath.UntaggedTextResets | utils/ollama_mcp_client.py:91-95 | a last text item without a complete tag pair leaves no answer, even after an earlier tagged one, and the loop goes on |
| FunctionPath.AnswerEndsLoop | utils/ollama_mcp_client.py:82-95 | a round that leaves an answer is the last one |
| FunctionPath.LoopKeepsShape | utils/ollama_mcp_client.py:82-107 | the loop only appends to the history and keeps it a run of call/output pairs, whether it returns or raises |
| FunctionPath.QueryHistory | utils/ollama_mcp_client.py:59-107 | a query's history, returned or as it stood at the raise, begins with the developer prompt and the query, and after them holds only call/output pairs with matching call ids, two messages per tool call counted; text items are never appended |
| FunctionPath.LoopBudget | utils/ollama_mcp_client.py:76-90 | the loop never goes past the budget; when it returns, the budget is spent or there is an answer; a return without an answer has spent the budget |
| FunctionPath.QueryBudget | utils/ollama_mcp_client.py:76-90 | a query makes at most `timeout` backend calls, whether it returns or raises, and exactly that many when it returns no answer |
| Scenarios.ChatterThenAnswer | utils/ollama_mcp_client.py:160 | text before a single tag pair is dropped, and the match may hold any characters, line breaks included, except a closing tag |
| Scenarios.TwoAnswers | utils/ollama_mcp_client.py:94 | two tag pairs yield two matches, left to right |
| Scenarios.ChatAnswersInThirdRound | utils/ollama_mcp_client.py:140-175 | with a budget of three, two tool rounds and then a tagged reply give three backend calls, two tool calls, and the reply's matches as the answer |
| Scenarios.ChatBudgetExhausted | utils/ollama_mcp_client.py:140-160 | untagged replies use up the budget: two calls for a budget of two, with no answer |
| Scenarios.MalformedArgumentsRaise | utils/ollama_mcp_client.py:97-98 | undecodable arguments raise in the first round, with nothing appended for the call |
| Scenarios.LaterTextClearsAnswer | utils/ollama_mcp_client.py:91-95 | a tagged text item followed by an untagged one leaves no answer, so the loop runs until the budget is spent |

## Left out

- Client.MCPClient.OpenAIProcessQuery: when the query raises, the source's exception carries no state. The model returns `Raised` with the error kind and the state reached, so the lemmas can say what had been appended by then.
- Client.MCPClient.OllamaProcessQuery and Client.MCPClient.OpenAIProcessQuery return `num_responses` as an extra result. The source keeps it local, and the budget properties need it.
- Client.MCPClient.RunToolCalls is the source's inner `for tool in tool_calls` loop, written as its own method. The loop and its effects are the same.
- `connect_to_servers`, `cleanup`, the `AsyncExitStack` and the `async with self.session` scopes are left out. They are network and resource plumbing over libraries whose code is not part of this model. The tool list they fetch is the constructor's `tools`.
- `chat_loop` and the `quit` check are left out. They are console input and output.
- The real backends, the tool service and `json.loads` are parameters (oracles), not code.
  - Backend transport errors and retries are not modelled.
  - Tool-service exceptions other than `ToolError` are not modelled.
  - The model, token-limit and truncation options sent to the backends are not modelled.
  - The tool list is passed as descriptors, without the backend-specific JSON wrapping.
- ChatPath.ToolResultText: `result.content[0].text` and `str(result)` are opaque strings of the outcome. The model does not capture the `IndexError` an empty `content` would raise.
- In the function-calling path, every item that is not a function call is a text item. The texts of its content parts are all that matter. An item without content, which would make the join fail, is not modelled.
- Debug printing is left out. So are the `model_dump_json` and `json.loads` round trips the history goes through. They are formatting only.
- General regular-expression semantics and real JSON parsing are left out. Only the fixed answer-tag pattern is modelled, as its scanner. Decoding is a partial function.
