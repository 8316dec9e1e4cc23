/** `generateBotReply`: the context a bot persona is prompted with (the last
    20 messages rendered as a "name: text" transcript inside a fixed prompt
    template) and the guarded call of the retry wrapper. */
module GeminiService {
  import opened Types
  import opened JsString
  import opened Retry

  /** How many of the most recent messages the prompt shows. */
  const ContextWindow: nat := 20

  const DefaultInstruction := "You are a helpful assistant."
  const UnknownSender := "Unknown"

  /** The error the user guard throws. */
  const UserParticipantError := ApiError("Cannot generate reply for a user participant.", Undefined, Undefined)

  /** `messages.slice(-20)`: the most recent messages, at most 20 of them,
      oldest first. */
  function RecentMessages(messages: seq<Message>): seq<Message> {
    messages[(if |messages| > ContextWindow then |messages| - ContextWindow else 0)..]
  }

  /** The window is the last min(20, |messages|) messages, in their order. */
  lemma RecentMessagesWindow(messages: seq<Message>)
    ensures var r := RecentMessages(messages);
      |r| == (if |messages| < ContextWindow then |messages| else ContextWindow) &&
      r == messages[|messages| - |r|..]
  {
  }

  /** The name shown for a sender (`participants.find` by id). */
  function SenderName(roster: seq<Participant>, senderId: string): string {
    var first := FirstIndex(roster, (p: Participant) => p.id == senderId);
    if first < |roster| then roster[first].name else UnknownSender
  }

  /** The sender's name is the name of the first participant with that id. */
  lemma SenderNameFirstMatch(roster: seq<Participant>, senderId: string, i: nat)
    requires i < |roster| && roster[i].id == senderId
    requires forall j :: 0 <= j < i ==> roster[j].id != senderId
    ensures SenderName(roster, senderId) == roster[i].name
  {
    var first := FirstIndex(roster, (p: Participant) => p.id == senderId);
    assert first <= i;
  }

  /** A sender no participant has (one removed from the roster) is shown as
      "Unknown". */
  lemma SenderNameMissing(roster: seq<Participant>, senderId: string)
    requires forall i :: 0 <= i < |roster| ==> roster[i].id != senderId
    ensures SenderName(roster, senderId) == UnknownSender
  {
    var first := FirstIndex(roster, (p: Participant) => p.id == senderId);
    assert first == |roster|;
  }

  /** One transcript line. */
  function Line(roster: seq<Participant>, m: Message): string {
    SenderName(roster, m.senderId) + ": " + m.content + "\n"
  }

  /** The strings `f` gives for `xs`, concatenated in the order of `xs`. */
  function ConcatMap<T>(f: T -> string, xs: seq<T>): string {
    if xs == [] then "" else ConcatMap(f, xs[..|xs| - 1]) + f(xs[|xs| - 1])
  }

  lemma {:induction false} ConcatMapAppend<T>(f: T -> string, a: seq<T>, b: seq<T>)
    ensures ConcatMap(f, a + b) == ConcatMap(f, a) + ConcatMap(f, b)
    decreases |b|
  {
    if b == [] {
      assert a + b == a;
    } else {
      assert (a + b)[..|a + b| - 1] == a + b[..|b| - 1];
      ConcatMapAppend(f, a, b[..|b| - 1]);
    }
  }

  /** The transcript of `messages`, one line per message, oldest first. */
  function Transcript(roster: seq<Participant>, messages: seq<Message>): string {
    ConcatMap((m: Message) => Line(roster, m), messages)
  }

  /** Consecutive stretches of the log give consecutive stretches of the
      transcript. */
  lemma TranscriptAppend(roster: seq<Participant>, a: seq<Message>, b: seq<Message>)
    ensures Transcript(roster, a + b) == Transcript(roster, a) + Transcript(roster, b)
  {
    ConcatMapAppend((m: Message) => Line(roster, m), a, b);
  }

  /** The oldest message gives the first line. */
  lemma TranscriptOldestFirst(roster: seq<Participant>, m: Message, rest: seq<Message>)
    ensures Transcript(roster, [m] + rest) == Line(roster, m) + Transcript(roster, rest)
  {
    TranscriptAppend(roster, [m], rest);
    assert [m][..0] == [];
    assert Transcript(roster, [m]) == Transcript(roster, []) + Line(roster, m);
  }

  /** The persona text: the bot's instruction, or the default when it has
      none or it is empty (`bot.systemInstruction || "..."`). */
  function Instruction(bot: Participant): (text: string)
    ensures text != ""
    ensures bot.systemInstruction.Some? && bot.systemInstruction.value != "" ==>
      text == bot.systemInstruction.value
    ensures bot.systemInstruction == None || bot.systemInstruction == Some("") ==>
      text == DefaultInstruction
  {
    match bot.systemInstruction
    case Some(s) => if s != "" then s else DefaultInstruction
    case None => DefaultInstruction
  }

  // The fixed wording of the prompt template around its four slots.
  const PromptHead := "\nYou are participating in a group chat.\nYour name is: "
  const PromptPersona := "\nYour persona/instruction is: "
  const PromptHistory := "\n\nThe current conversation history is:\n---\n"
  const PromptRequest := "\n---\n\nPlease provide your response to the conversation as "
  const PromptTail := ". \nDo not prefix your response with your name (e.g. \"Name: ...\"), just provide the message content directly.\nKeep your response concise and conversational, suitable for a group chat setting.\nIMPORTANT: Respond in Simplified Chinese (简体中文).\n"

  /** The template up to the conversation slot: name and persona text. */
  function PromptIntro(bot: Participant): string {
    PromptHead + bot.name + PromptPersona + Instruction(bot) + PromptHistory
  }

  /** The template after the conversation slot. */
  function PromptOutro(bot: Participant): string {
    PromptRequest + bot.name + PromptTail
  }

  /** The prompt for `bot`, with `history` as the conversation slot. */
  function Prompt(bot: Participant, history: string): string {
    PromptIntro(bot) + history + PromptOutro(bot)
  }

  /** Where the pieces of `a + x + b + y + c` sit. */
  lemma {:induction false} SlicesOfFive<T>(a: seq<T>, x: seq<T>, b: seq<T>, y: seq<T>, c: seq<T>)
    ensures var p := a + x + b + y + c;
      |a| + |x| + |b| + |y| <= |p| &&
      p[|a|..|a| + |x|] == x &&
      p[|a| + |x| + |b|..|a| + |x| + |b| + |y|] == y
  {
    var p := a + x + b + y + c;
    assert p[|a|..|a| + |x|] == x by {
      forall j | 0 <= j < |x| ensures p[|a| + j] == x[j] { }
    }
    assert p[|a| + |x| + |b|..|a| + |x| + |b| + |y|] == y by {
      forall j | 0 <= j < |y| ensures p[|a| + |x| + |b| + j] == y[j] { }
    }
  }

  /** The prompt carries the persona text and the transcript whole, each at a
      position fixed by the template and the bot's name. */
  lemma PromptSlots(bot: Participant, history: string)
    ensures var p := Prompt(bot, history);
      var i := |PromptHead + bot.name + PromptPersona|;
      var h := i + |Instruction(bot)| + |PromptHistory|;
      h + |history| <= |p| &&
      p[i..i + |Instruction(bot)|] == Instruction(bot) &&
      p[h..h + |history|] == history
  {
    SlicesOfFive(PromptHead + bot.name + PromptPersona, Instruction(bot), PromptHistory, history, PromptOutro(bot));
  }

  /** The prompt `generateBotReply` builds for `bot` from `messages`. */
  function BotPrompt(bot: Participant, roster: seq<Participant>, messages: seq<Message>): string {
    Prompt(bot, Transcript(roster, RecentMessages(messages)))
  }

  /** The `forEach` loop that accumulates `conversationHistory`. */
  method BuildConversationHistory(roster: seq<Participant>, messages: seq<Message>) returns (history: string)
    ensures history == Transcript(roster, RecentMessages(messages))
  {
    var recent := RecentMessages(messages);
    history := "";
    for i := 0 to |recent|
      invariant history == Transcript(roster, recent[..i])
    {
      assert recent[..i + 1][..i] == recent[..i];
      var senderName := SenderName(roster, recent[i].senderId);
      history := history + (senderName + ": " + recent[i].content + "\n");
    }
    assert recent[..|recent|] == recent;
  }

  /** What a call of `generateBotReply` did: the prompt it sent, if it got
      that far, and how the retry wrapper settled. */
  datatype BotReply = BotReply(prompt: Option<string>, generation: Generation)

  /** `generateBotReply(bot, participants, messages)`, with `attempts` as
      the backend's behaviour. For a user participant it throws before
      building a prompt or calling the backend; otherwise it settles exactly
      as the retry wrapper does on the prompt built from the last 20
      messages (its `catch` rethrows unchanged). */
  method GenerateBotReply(bot: Participant, roster: seq<Participant>, messages: seq<Message>, attempts: Attempts)
    returns (r: BotReply)
    ensures bot.isUser ==> r == BotReply(None, Generation(Threw(UserParticipantError), []))
    ensures !bot.isUser ==> r == BotReply(Some(BotPrompt(bot, roster, messages)), Generate(attempts))
  {
    if bot.isUser {
      return BotReply(None, Generation(Threw(UserParticipantError), []));
    }
    var history := BuildConversationHistory(roster, messages);
    var prompt := Prompt(bot, history);
    r := BotReply(Some(prompt), Generate(attempts));
  }
}
