/**
 * The turn coordinator of `WeatherAgentTeam` (weather_team.py:76-133): the
 * selector that picks the next agent from the message history, the
 * termination condition, and how the final answer is read off the messages.
 */
module Team {
  import opened Wrappers
  import opened Strings

  /** A message of the group chat: the name of its author and its text. */
  datatype Message = Message(source: string, content: string)

  const IntentParser := "intent_parser"
  const WeatherAgent := "weather_agent"
  const Formatter := "formatter"

  /** The selector's answer and the progress line it prints when verbose. */
  datatype Selection = Selection(next: Option<string>, trace: seq<string>)

  /**
   * `_agent_selector(messages)`: the opening message goes to the intent
   * parser; after the intent parser comes the weather agent, after the
   * weather agent the formatter; after anyone else nobody (`None`).
   */
  function AgentSelector(messages: seq<Message>, verbose: bool): (s: Selection)
    ensures s.next in {Some(IntentParser), Some(WeatherAgent), Some(Formatter), None}
    ensures |messages| <= 1 ==> s.next == Some(IntentParser)
    ensures |messages| > 1 ==>
              var last := messages[|messages| - 1].source;
              && (s.next == Some(WeatherAgent) <==> last == IntentParser)
              && (s.next == Some(Formatter) <==> last == WeatherAgent)
              && (s.next.None? <==> last != IntentParser && last != WeatherAgent)
    ensures verbose ==> |s.trace| == 1
    ensures !verbose ==> s.trace == []
  {
    var trace := (line: string) => if verbose then [line] else [];
    if |messages| <= 1 then
      Selection(Some(IntentParser), trace("🔄 协作流程：用户查询 → 意图解析代理"))
    else
      var lastSpeaker := messages[|messages| - 1].source;
      if lastSpeaker == IntentParser then
        Selection(Some(WeatherAgent), trace("🔄 协作流程：意图解析完成 → 天气查询代理"))
      else if lastSpeaker == WeatherAgent then
        Selection(Some(Formatter), trace("🔄 协作流程：天气查询完成 → 响应格式化代理"))
      else
        Selection(None, trace("✅ 协作流程完成！"))
  }

  /** The verbose flag changes only what is printed, never the agent selected. */
  lemma VerboseOnlyPrints(messages: seq<Message>)
    ensures AgentSelector(messages, true).next == AgentSelector(messages, false).next
  {
  }

  /** The selection depends on nothing but the history's length and its last author. */
  lemma SelectionDependsOnLengthAndLastSource(a: seq<Message>, b: seq<Message>, verbose: bool)
    requires |a| == |b|
    requires |a| > 1 ==> a[|a| - 1].source == b[|b| - 1].source
    ensures AgentSelector(a, verbose).next == AgentSelector(b, verbose).next
  {
  }

  /**
   * The agents picked when each selected agent in turn appends one message
   * (its text taken from `replies`) to the history, until the selector
   * answers `None` or the replies run out.
   */
  function Pipeline(history: seq<Message>, replies: seq<string>): (picked: seq<string>)
    ensures |picked| <= |replies| + 1
    ensures forall i :: 0 <= i < |picked| ==> picked[i] in {IntentParser, WeatherAgent, Formatter}
    decreases |replies|
  {
    match AgentSelector(history, false).next
    case None => []
    case Some(agent) =>
      if |replies| == 0 then [agent]
      else [agent] + Pipeline(history + [Message(agent, replies[0])], replies[1..])
  }

  /**
   * From the user's opening message the stages run in the order intent
   * parser, weather agent, formatter, and then the selector answers `None`:
   * no stage is picked twice, whatever the agents say.
   */
  lemma {:induction false} PipelineFromOpening(opening: Message, replies: seq<string>)
    ensures Pipeline([opening], replies) ==
      [IntentParser, WeatherAgent, Formatter][..if |replies| < 2 then |replies| + 1 else 3]
  {
    var h0 := [opening];
    if |replies| > 0 {
      var h1 := h0 + [Message(IntentParser, replies[0])];
      assert AgentSelector(h1, false).next == Some(WeatherAgent);
      if |replies| > 1 {
        var h2 := h1 + [Message(WeatherAgent, replies[1])];
        assert AgentSelector(h2, false).next == Some(Formatter);
        if |replies| > 2 {
          var h3 := h2 + [Message(Formatter, replies[2])];
          assert AgentSelector(h3, false).next.None?;
          assert Pipeline(h3, replies[3..]) == [];
          assert Pipeline(h2, replies[2..]) == [Formatter];
        } else {
          assert Pipeline(h2, replies[2..]) == [Formatter];
        }
        assert Pipeline(h1, replies[1..]) == [WeatherAgent] + Pipeline(h2, replies[2..]);
      } else {
        assert Pipeline(h1, replies[1..]) == [WeatherAgent];
      }
    }
  }

  /** The phrase whose mention ends the conversation. */
  const DonePhrase := "查询完成"
  /** The message count at which the conversation ends. */
  const MaxMessages := 8

  /** The substring search on every message finds exactly the occurrences there are. */
  lemma MentionedAll(messages: seq<Message>)
    ensures forall i :: 0 <= i < |messages| ==>
      (Contains(messages[i].content, DonePhrase) <==> exists k :: OccursAt(messages[i].content, DonePhrase, k))
  {
    forall i | 0 <= i < |messages| ensures
      Contains(messages[i].content, DonePhrase) <==> exists k :: OccursAt(messages[i].content, DonePhrase, k)
    {
      ContainsIff(messages[i].content, DonePhrase);
    }
  }

  /** `TextMentionTermination("查询完成")`: some message so far mentions the phrase. */
  predicate MentionsDone(messages: seq<Message>)
    ensures MentionsDone(messages) <==>
      exists i, k :: 0 <= i < |messages| && OccursAt(messages[i].content, DonePhrase, k)
  {
    MentionedAll(messages);
    exists i :: 0 <= i < |messages| && Contains(messages[i].content, DonePhrase)
  }

  /**
   * `_create_termination_condition()`: the two conditions joined with `|`;
   * either one alone stops the conversation.
   */
  predicate ShouldTerminate(messages: seq<Message>)
    ensures ShouldTerminate(messages) ==> |messages| > 0
    ensures |messages| < MaxMessages ==> (ShouldTerminate(messages) <==> MentionsDone(messages))
    ensures |messages| >= MaxMessages ==> ShouldTerminate(messages)
  {
    MentionsDone(messages) || |messages| >= MaxMessages
  }

  /** Once the conversation has stopped, another message does not resume it. */
  lemma TerminationIsStable(messages: seq<Message>, next: Message)
    requires ShouldTerminate(messages)
    ensures ShouldTerminate(messages + [next])
  {
    if MentionsDone(messages) {
      var i :| 0 <= i < |messages| && Contains(messages[i].content, DonePhrase);
      assert (messages + [next])[i] == messages[i];
    }
  }

  /** A message that mentions the phrase anywhere in its text stops the conversation at any length. */
  lemma MentionStops(messages: seq<Message>, pre: string, post: string, source: string)
    ensures ShouldTerminate(messages + [Message(source, pre + DonePhrase + post)])
  {
    var all := messages + [Message(source, pre + DonePhrase + post)];
    ContainsPiece(pre, DonePhrase, post);
    assert all[|messages|].content == pre + DonePhrase + post;
  }

  /** The normal run (opening message and three agent replies) is far below the message limit. */
  lemma NormalRunStaysBelowLimit(opening: Message, replies: seq<string>)
    requires |replies| == 3
    ensures |Pipeline([opening], replies)| + 1 < MaxMessages
  {
    PipelineFromOpening(opening, replies);
  }

  /** The answer `query_with_collaboration` returns: the last message's text, or a fixed failure text. */
  function FinalAnswer(messages: seq<Message>): (answer: string)
    ensures |messages| > 0 ==> answer == messages[|messages| - 1].content
    ensures |messages| == 0 ==> answer == "协作查询失败"
  {
    if |messages| > 0 then messages[|messages| - 1].content else "协作查询失败"
  }
}
