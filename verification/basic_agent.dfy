/** The conversation state of the basic travel assistant: the message list it
    sends to the language model, the bounded history it keeps between turns, and
    the summary it prints.  The model client is a parameter: a total function from
    the messages sent to either the reply's text or the text of the exception the
    call raised.
 */
module BasicAgent {
  import opened Common
  import opened Strings

  datatype Role = SystemRole | UserRole | AssistantRole

  /** One `{"role": ..., "content": ...}` entry. */
  datatype Message = Message(role: Role, content: string)

  /** A `TravelAssistant`: its name, the system prompt made from that name, and the
      conversation history. */
  datatype Assistant = Assistant(name: string, systemPrompt: string, history: seq<Message>)

  /** `self.client.invoke(messages)`: the reply's content, or the exception's text. */
  type Client = seq<Message> -> Result<string, string>

  /** History messages sent with each call. */
  const SentHistory: nat := 10
  /** History messages kept between calls. */
  const KeptHistory: nat := 20
  /** History messages shown by the summary. */
  const SummarizedMessages: nat := 6
  /** Characters of a message shown by the summary before it is cut. */
  const PreviewLength: nat := 50

  const ErrorPrefix := "抱歉，我暂时遇到了问题："
  const EmptySummary := "对话历史为空"

  function Min(a: int, b: int): int {
    if a <= b then a else b
  }

  /** `s[-n:]` for the positive counts used here: the last `n` elements, or all of
      them when there are fewer. */
  function LastUpTo<T>(s: seq<T>, n: nat): (r: seq<T>)
    ensures |r| == Min(|s|, n)
    ensures r == s[|s| - |r|..]
  {
    if |s| <= n then s else s[|s| - n..]
  }

  /** The words of the system prompt before the assistant's name. */
  const PromptIntro := "你是一位专业的旅行助手，名叫"

  /** The system prompt `_create_system_prompt` formats with the assistant's name:
      the same text for every assistant, with the name right after the
      introduction. */
  function SystemPrompt(name: string): (p: string)
    ensures |PromptIntro| + |name| <= |p|
    ensures p[..|PromptIntro|] == PromptIntro
    ensures p[|PromptIntro|..|PromptIntro| + |name|] == name
  {
    PromptIntro + name + "。你热情、细心、知识渊博。\n\n" +
    "        你的能力：\n" +
    "        1. 提供旅行建议和推荐\n" +
    "        2. 帮助规划行程\n" +
    "        3. 回答关于目的地的问题\n" +
    "        4. 给出预算建议\n" +
    "        5. 提醒旅行注意事项\n\n" +
    "        回答风格：\n" +
    "        - 友好、热情、有帮助\n" +
    "        - 提供具体、实用的建议\n" +
    "        - 当信息不足时，诚实地说明\n" +
    "        - 一次专注于回答一个问题\n" +
    "        - 使用适当的emoji让回答更生动\n\n" +
    "        请用中文回答所有问题。"
  }

  /** Assistants with different names get different prompts. */
  lemma SystemPromptNamesAssistant(a: string, b: string)
    requires SystemPrompt(a) == SystemPrompt(b)
    ensures a == b
  {
    var pa, pb := SystemPrompt(a), SystemPrompt(b);
    assert |a| == |b|;
    assert a == pa[|PromptIntro|..|PromptIntro| + |a|];
  }

  /** Only the name differs between two assistants' prompts: what follows it is
      the same text. */
  lemma SystemPromptSameTail(a: string, b: string)
    ensures SystemPrompt(a)[|PromptIntro| + |a|..] == SystemPrompt(b)[|PromptIntro| + |b|..]
  {
  }

  /** `TravelAssistant(name)`: the prompt made from the name and an empty history. */
  function NewAssistant(name: string): (a: Assistant)
    ensures a.name == name && a.history == []
  {
    Assistant(name, SystemPrompt(name), [])
  }

  /** The history limit every reachable assistant keeps. */
  predicate WithinLimit(a: Assistant) {
    |a.history| <= KeptHistory
  }

  /** The message list `chat` sends: the system prompt, the last (at most ten)
      history messages in order, then the user's message. */
  function Messages(a: Assistant, userMessage: string): (ms: seq<Message>)
    ensures 2 <= |ms| <= 2 + SentHistory
    ensures |ms| == 2 + Min(|a.history|, SentHistory)
    ensures ms[0] == Message(SystemRole, a.systemPrompt)
    ensures ms[|ms| - 1] == Message(UserRole, userMessage)
    ensures forall k :: 1 <= k < |ms| - 1 ==> ms[k] == a.history[|a.history| - (|ms| - 2) + (k - 1)]
  {
    var recent := LastUpTo(a.history, SentHistory);
    var ms := [Message(SystemRole, a.systemPrompt)] + recent + [Message(UserRole, userMessage)];
    assert forall k :: 1 <= k < |ms| - 1 ==> ms[k] == recent[k - 1];
    ms
  }

  /** `chat(user_message, reset_conversation)`.  A reset empties the history first.
      A reply is returned and the user's message and the reply are appended to the
      history, which is then cut to its last twenty messages; a failed call
      returns the apology with the error's text and leaves the history as it was
      after the optional reset. */
  function Chat(a: Assistant, userMessage: string, resetConversation: bool, client: Client): (r: (Assistant, string))
    ensures r.0.name == a.name && r.0.systemPrompt == a.systemPrompt
    ensures var start := if resetConversation then [] else a.history;
            match client(Messages(a.(history := start), userMessage))
            case Ok(reply) =>
              var grown := start + [Message(UserRole, userMessage), Message(AssistantRole, reply)];
              && r.1 == reply
              && |r.0.history| == Min(|start| + 2, KeptHistory)
              && r.0.history == grown[|grown| - |r.0.history|..]
            case Err(e) =>
              r.1 == ErrorPrefix + e && r.0.history == start
  {
    var cleared := if resetConversation then a.(history := []) else a;
    match client(Messages(cleared, userMessage))
    case Ok(reply) =>
      var grown := cleared.history + [Message(UserRole, userMessage), Message(AssistantRole, reply)];
      (cleared.(history := LastUpTo(grown, KeptHistory)), reply)
    case Err(e) =>
      (cleared, ErrorPrefix + e)
  }

  /** `reset()`: the history is emptied, nothing else changes. */
  function Reset(a: Assistant): (r: Assistant)
    ensures r.history == [] && r.name == a.name && r.systemPrompt == a.systemPrompt
  {
    a.(history := [])
  }

  /** A turn never takes the history past twenty messages. */
  lemma ChatKeepsLimit(a: Assistant, userMessage: string, resetConversation: bool, client: Client)
    requires WithinLimit(a)
    ensures WithinLimit(Chat(a, userMessage, resetConversation, client).0)
  {
  }

  /** A successful turn ends the history with the user's message and the reply. */
  lemma ChatEndsWithTurn(a: Assistant, userMessage: string, resetConversation: bool, client: Client)
    requires client(Messages(a.(history := if resetConversation then [] else a.history), userMessage)).Ok?
    ensures var (b, reply) := Chat(a, userMessage, resetConversation, client);
            |b.history| >= 2 &&
            b.history[|b.history| - 2..] == [Message(UserRole, userMessage), Message(AssistantRole, reply)]
  {
    var start := if resetConversation then [] else a.history;
    var (b, reply) := Chat(a, userMessage, resetConversation, client);
    var grown := start + [Message(UserRole, userMessage), Message(AssistantRole, reply)];
    assert b.history == grown[|grown| - |b.history|..];
    assert b.history[|b.history| - 2..] == grown[|grown| - 2..];
  }

  /** The `reset_conversation` flag is the same as calling `reset()` first. */
  lemma ResetFlagIsReset(a: Assistant, userMessage: string, client: Client)
    ensures Chat(a, userMessage, true, client) == Chat(Reset(a), userMessage, false, client)
  {
  }

  /** From an empty history, two successful turns leave exactly the four messages
      of the two exchanges, in order. */
  lemma TwoTurnsFromEmpty(a: Assistant, first: string, second: string, client: Client)
    requires a.history == []
    requires forall ms :: client(ms).Ok?
    ensures var (a1, reply1) := Chat(a, first, false, client);
            var (a2, reply2) := Chat(a1, second, false, client);
            a2.history == [Message(UserRole, first), Message(AssistantRole, reply1),
                           Message(UserRole, second), Message(AssistantRole, reply2)]
  {
    var (a1, reply1) := Chat(a, first, false, client);
    assert a1.history == [Message(UserRole, first), Message(AssistantRole, reply1)];
  }

  // ---------------------------------------------------------------------------
  // get_conversation_summary
  // ---------------------------------------------------------------------------

  /** A message's content, cut to fifty characters followed by "..." when longer. */
  function Preview(content: string): (p: string)
    ensures |content| <= PreviewLength ==> p == content
    ensures |content| > PreviewLength ==>
              |p| == PreviewLength + 3 && p[..PreviewLength] == content[..PreviewLength] && p[PreviewLength..] == "..."
  {
    if |content| > PreviewLength then content[..PreviewLength] + "..." else content
  }

  /** A user message is labelled "用户", any other with the assistant's name. */
  function RoleLabel(m: Message, name: string): string {
    if m.role == UserRole then "用户" else name
  }

  /** Line `i` of the summary. */
  function SummaryLine(i: nat, m: Message, name: string): string {
    IntToDecimal(i) + ". " + RoleLabel(m, name) + ": " + Preview(m.content) + "\n"
  }

  /** The lines of `enumerate(messages, first)`. */
  function SummaryLines(msgs: seq<Message>, first: nat, name: string): (lines: seq<string>)
    ensures |lines| == |msgs|
  {
    if msgs == [] then [] else [SummaryLine(first, msgs[0], name)] + SummaryLines(msgs[1..], first + 1, name)
  }

  /** Line `k` is numbered `first + k` and shows message `k`. */
  lemma {:induction false} SummaryLinesNumbered(msgs: seq<Message>, first: nat, name: string)
    ensures forall k :: 0 <= k < |msgs| ==> SummaryLines(msgs, first, name)[k] == SummaryLine(first + k, msgs[k], name)
  {
    if msgs != [] {
      SummaryLinesNumbered(msgs[1..], first + 1, name);
      var lines := SummaryLines(msgs, first, name);
      var rest := SummaryLines(msgs[1..], first + 1, name);
      assert lines == [SummaryLine(first, msgs[0], name)] + rest;
      forall k | 0 <= k < |msgs| ensures lines[k] == SummaryLine(first + k, msgs[k], name) {
        if k > 0 {
          assert lines[k] == rest[k - 1];
          assert msgs[1..][k - 1] == msgs[k] && first + 1 + (k - 1) == first + k;
        }
      }
    }
  }

  function Concat(lines: seq<string>): string {
    if lines == [] then "" else lines[0] + Concat(lines[1..])
  }

  function SummaryHeader(count: nat): string {
    "最近对话摘要（共" + IntToDecimal(count) + "条消息）:\n"
  }

  /** `get_conversation_summary()`. */
  function Summary(a: Assistant): (s: string)
    ensures s == EmptySummary <==> a.history == []
  {
    if a.history == [] then
      EmptySummary
    else
      var s := SummaryHeader(|a.history|) + Concat(SummaryLines(LastUpTo(a.history, SummarizedMessages), 1, a.name));
      assert s[0] == '最';
      s
  }

  /** A non-empty history is summarised by a header with the total count and one
      line per message of the last six, oldest first, numbered from 1. */
  lemma SummaryListsRecent(a: Assistant)
    requires a.history != []
    ensures var n := Min(|a.history|, SummarizedMessages);
            var lines := SummaryLines(LastUpTo(a.history, SummarizedMessages), 1, a.name);
            && |lines| == n
            && Summary(a) == SummaryHeader(|a.history|) + Concat(lines)
            && forall k :: 0 <= k < n ==> lines[k] == SummaryLine(k + 1, a.history[|a.history| - n + k], a.name)
  {
    var recent := LastUpTo(a.history, SummarizedMessages);
    SummaryLinesNumbered(recent, 1, a.name);
  }
}
