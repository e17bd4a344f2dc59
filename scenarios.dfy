/** Worked cases: what the answer extractor makes of typical model replies, and whole
    queries against scripted backends and tool services. */
module Scenarios {
  import opened Options
  import opened AnswerTags
  import opened Conversation
  import ChatPath
  import FunctionPath

  /** Chatter before a single tag pair is dropped; the match may hold any characters
      but a closing tag, line breaks included. */
  lemma ChatterThenAnswer(pre: string, m: string)
    requires !Contains(pre, Open) && !Contains(m, Close)
    ensures FindAnswers(pre + Open + m + Close) == [m]
  {
    var text := pre + Open + m + Close;
    assert text == Interleave([pre, ""], [m]);
    SplitDeterminesMatches(text, [pre, ""], [m]);
  }

  /** Two pairs yield two matches, left to right. */
  lemma TwoAnswers(a: string, mid: string, b: string)
    requires !Contains(a, Close) && !Contains(mid, Open) && !Contains(b, Close)
    ensures FindAnswers(Open + a + Close + mid + Open + b + Close) == [a, b]
  {
    var rest := mid + Open + b + Close;
    MatchFirst(a, rest);
    ChatterThenAnswer(mid, b);
    Regroup(Open, a, Close, mid, b);
  }

  lemma Regroup(o: string, a: string, c: string, mid: string, b: string)
    ensures o + a + c + mid + o + b + c == o + a + c + (mid + o + b + c)
  {
  }

  /** Round one asks for "search", round two for "click", round three replies `final`. */
  function ScriptedChat(final: string): ChatBackend {
    (round: nat, history: seq<Message>, tools: seq<ToolDescriptor>) =>
      if round == 0 then ChatReply("", [ToolCall("search", map[])])
      else if round == 1 then ChatReply("", [ToolCall("click", map[])])
      else ChatReply(final, [])
  }

  function AlwaysOk(seqNo: nat, name: string, args: Arguments): ToolOutcome {
    ToolOk("done", "done")
  }

  /** A budget of three, two tool rounds, then a tagged reply: three backend calls, two
      tool calls, and the reply's matches as the answer. */
  lemma ChatAnswersInThirdRound(prompt: string, query: string, final: string)
    requires FindAnswers(final) != []
    ensures var r := ChatPath.Query(prompt, 3, [], query, ScriptedChat(final), AlwaysOk);
      r.answer == FindAnswers(final) && r.responses == 3 && r.toolCount == 2
  {
    var chat := ScriptedChat(final);
    var s0 := ChatPath.Start(prompt, query);
    var s1 := ChatPath.Round(s0, [], chat, AlwaysOk);
    assert s1.responses == 1 && s1.answer == [] && s1.toolCount == 1;
    var s2 := ChatPath.Round(s1, [], chat, AlwaysOk);
    assert s2.responses == 2 && s2.answer == [] && s2.toolCount == 2;
    var s3 := ChatPath.Round(s2, [], chat, AlwaysOk);
    assert s3.responses == 3 && s3.answer == FindAnswers(final) && s3.toolCount == 2;
    assert ChatPath.Loop(s3, 3, [], chat, AlwaysOk) == s3;
    assert ChatPath.Loop(s2, 3, [], chat, AlwaysOk) == s3;
    assert ChatPath.Loop(s1, 3, [], chat, AlwaysOk) == s3;
  }

  function PlainChat(round: nat, history: seq<Message>, tools: seq<ToolDescriptor>): ChatReply {
    ChatReply("no tags", [])
  }

  /** A budget of two and replies without tags: two backend calls, no answer, no tools. */
  lemma ChatBudgetExhausted(prompt: string, query: string)
    ensures var r := ChatPath.Query(prompt, 2, [], query, PlainChat, AlwaysOk);
      r.answer == [] && r.responses == 2 && r.toolCount == 0
  {
    var s0 := ChatPath.Start(prompt, query);
    var s1 := ChatPath.Round(s0, [], PlainChat, AlwaysOk);
    var s2 := ChatPath.Round(s1, [], PlainChat, AlwaysOk);
    assert s2.responses == 2 && s2.answer == [] && s2.toolCount == 0;
    assert ChatPath.Loop(s1, 2, [], PlainChat, AlwaysOk) == s2;
  }

  function MalformedCall(round: nat, history: seq<Message>, tools: seq<ToolDescriptor>): seq<OutputItem> {
    [CallItem(FunctionCallItem("c1", "search", "{not json"))]
  }

  function RejectAll(text: string): Option<Arguments> {
    None
  }

  /** Undecodable arguments raise out of the query in its first round, with nothing
      appended for the call. */
  lemma MalformedArgumentsRaise(prompt: string, query: string)
    ensures FunctionPath.Query(prompt, 5, [], query, MalformedCall, RejectAll, AlwaysOk) ==
      Raised(ArgumentDecodeError("{not json"), QueryState(1, [], FunctionPath.Seed(prompt, query), 0))
  {
    var s0 := FunctionPath.Start(prompt, query);
    var s := s0.(responses := 1);
    var items := MalformedCall(0, s0.messages, []);
    assert FunctionPath.ItemStep(s, items[0], RejectAll, AlwaysOk) == Raised(ArgumentDecodeError("{not json"), s);
    assert FunctionPath.Items(s, items, RejectAll, AlwaysOk) == Raised(ArgumentDecodeError("{not json"), s);
  }

  /** Two text items per response: `earlier`, then `later`. */
  function AnswerThenChatter(earlier: string, later: string): ResponsesBackend {
    (round: nat, history: seq<Message>, tools: seq<ToolDescriptor>) =>
      [TextItem([earlier]), TextItem([later])]
  }

  /** A later text item without a tag pair clears the answer an earlier one set, so the
      loop runs until the budget is spent. */
  lemma LaterTextClearsAnswer(prompt: string, query: string, earlier: string, later: string)
    requires FindAnswers(earlier) != [] && FindAnswers(later) == []
    ensures var r := FunctionPath.Query(prompt, 2, [], query, AnswerThenChatter(earlier, later), RejectAll, AlwaysOk);
      r.Returned? && r.state.answer == [] && r.state.responses == 2
  {
    var respond := AnswerThenChatter(earlier, later);
    var s0 := FunctionPath.Start(prompt, query);
    var r1 := FunctionPath.Round(s0, [], respond, RejectAll, AlwaysOk);
    RoundOfChatter(s0, earlier, later);
    var r2 := FunctionPath.Round(r1.state, [], respond, RejectAll, AlwaysOk);
    RoundOfChatter(r1.state, earlier, later);
    assert FunctionPath.Loop(r2.state, 2, [], respond, RejectAll, AlwaysOk) == r2;
    assert FunctionPath.Loop(r1.state, 2, [], respond, RejectAll, AlwaysOk) == r2;
  }

  lemma RoundOfChatter(s: QueryState, earlier: string, later: string)
    requires FindAnswers(later) == []
    ensures var r := FunctionPath.Round(s, [], AnswerThenChatter(earlier, later), RejectAll, AlwaysOk);
      r.Returned? && r.state.answer == [] && r.state.responses == s.responses + 1
  {
    var items := AnswerThenChatter(earlier, later)(s.responses, s.messages, []);
    var t := s.(responses := s.responses + 1);
    var t1 := t.(answer := FindAnswers(FunctionPath.JoinWithSpaces([earlier])));
    var t2 := t1.(answer := FindAnswers(FunctionPath.JoinWithSpaces([later])));
    assert FunctionPath.JoinWithSpaces([later]) == later;
    assert t2.answer == [];
    assert items[1..] == [TextItem([later])] && items[1..][1..] == [];
    assert FunctionPath.Items(t1, items[1..], RejectAll, AlwaysOk) == Returned(t2);
    assert FunctionPath.Items(t, items, RejectAll, AlwaysOk) == Returned(t2);
  }
}
