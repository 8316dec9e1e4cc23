/** The chat application's shared state and its handlers: sending a
    message, the sequential turn of bot replies it starts, resetting the
    chat, and adding and removing bots. React state updates are applied at
    once; the awaits of a turn become plain steps of the loop, and a reset
    from outside is a call of `ResetChat` at one of the two checkpoints the
    `resets` oracle names. */
module App {
  import opened Types
  import opened JsString
  import opened Retry
  import opened GeminiService
  import opened TurnSpec

  /** The roster the application starts with: the user and four bots. */
  const InitialParticipants: seq<Participant> := [
    Participant("user-1", "你", "https://api.dicebear.com/9.x/adventurer/svg?seed=Felix",
                true, None, "#3b82f6"),
    Participant("bot-1", "哲学家", "https://api.dicebear.com/9.x/adventurer/svg?seed=Socrates",
                false, Some("你是一个深沉的思想家。你经常引用哲学名言，追问存在的意义。你性格冷静，说话有时稍微有点晦涩难懂，带点“高深”的调调。"),
                "#8b5cf6"),
    Participant("bot-3", "Nova", "https://api.dicebear.com/9.x/adventurer/svg?seed=Nova",
                false, Some("你是一个好奇心旺盛且充满想象力的ENTP。你喜欢探索理论上的可能性，经常问“如果……会怎样？”，能把不相关的概念联系起来。你精力充沛，机智幽默，随性而为。"),
                "#ec4899"),
    Participant("bot-4", "瓶子", "https://api.dicebear.com/9.x/adventurer/svg?seed=Bottle",
                false, Some("你是一个学识渊博、极度重视逻辑的INTP。你喜欢分析系统和原理，追求客观真理。你说话严谨、客观，有时显得有点像个百科全书，不太擅长处理情绪化的内容。"),
                "#06b6d4"),
    Participant("bot-5", "Lulu", "https://api.dicebear.com/9.x/adventurer/svg?seed=Lulu",
                false, Some("你是一个热爱生活、感受丰富细腻的Z世代年轻女孩（ISFP）。你注重当下的体验和美感，喜欢艺术和自然。你性格温和，说话风格轻松自然，真诚且富有同理心，喜欢用emoji来表达心情。"),
                "#fb923c")
  ]

  /** The initial roster has the user first and the four bots after it,
      so the first turn shuffles those four. */
  lemma InitialRoster()
    ensures |InitialParticipants| == 5
    ensures UserIndex(InitialParticipants) == 0 && InitialParticipants[0].id == "user-1"
    ensures Bots(InitialParticipants) == InitialParticipants[1..]
  {
    FilterAllKept(InitialParticipants[1..], (p: Participant) => !p.isUser);
  }

  /** The oracle for one position of the order: how the backend behaves on
      each attempt, and the id and timestamp a reply message would get. */
  datatype BotOracle = BotOracle(attempts: Attempts, replyId: string, replyTime: int)

  /** How a position settles: the retry wrapper's outcome on those attempts. */
  function Settle(o: BotOracle): Step {
    Step(Generate(o.attempts).outcome, o.replyId, o.replyTime)
  }

  /** How every position settles. */
  function SettleAll(oracles: seq<BotOracle>): (steps: seq<Step>)
    ensures |steps| == |oracles|
    ensures forall i {:trigger Settle(oracles[i])} :: 0 <= i < |oracles| ==> steps[i] == Settle(oracles[i])
  {
    if oracles == [] then [] else [Settle(oracles[0])] + SettleAll(oracles[1..])
  }

  /** A backend reply of white space only is trimmed to the empty string by
      the retry wrapper, so the bot's step appends nothing. */
  lemma WhiteSpaceReplyAppendsNothing(bot: Participant, o: BotOracle, text: string)
    requires o.attempts[0] == Responded(Some(text)) && text != "" && AllWhiteSpace(text)
    ensures StepReply(bot, Settle(o)) == []
  {
    WhiteSpaceReplyReturnsEmpty(o.attempts, text);
  }

  /** A backend that always fails retryably makes the bot's step append
      nothing, and the turn goes on to the next bot. */
  lemma ExhaustedRetriesAppendNothing(bot: Participant, o: BotOracle)
    requires forall j :: 0 <= j < |o.attempts| ==> FailsRetryably(o.attempts[j])
    ensures StepReply(bot, Settle(o)) == []
  {
    AlwaysRetryableFailsAfterThreeRetries(o.attempts);
  }

  /** A bot removed from the roster is in no later turn: no position of a
      shuffle of what remains has its id. */
  lemma RemovedBotNotVisited(roster: seq<Participant>, id: string, order: seq<Participant>)
    requires IsShuffleOf(order, Filter(roster, (p: Participant) => p.id != id))
    ensures forall i :: 0 <= i < |order| ==> order[i].id != id
  {
    ShuffleHasOnlyBots(order, Filter(roster, (p: Participant) => p.id != id));
  }

  /** Removing an id no participant has leaves the roster as it was. */
  lemma RemoveAbsentIdKeepsRoster(roster: seq<Participant>, id: string)
    requires forall i :: 0 <= i < |roster| ==> roster[i].id != id
    ensures Filter(roster, (p: Participant) => p.id != id) == roster
  {
    FilterAllKept(roster, (p: Participant) => p.id != id);
  }

  /** `participants.find(p => p.isUser)`, as an index. */
  function UserIndex(roster: seq<Participant>): nat {
    FirstIndex(roster, (p: Participant) => p.isUser)
  }

  class ChatApp {
    var participants: seq<Participant>
    var log: seq<Message>
    var inputText: string
    var typing: map<string, bool>
    /** `chatSessionRef.current`. */
    var epoch: nat

    constructor ()
      ensures participants == InitialParticipants && log == [] && inputText == ""
      ensures typing == map[] && epoch == 0
    {
      participants := InitialParticipants;
      log := [];
      inputText := "";
      typing := map[];
      epoch := 0;
    }

    /** The state a turn reads and writes. */
    function State(): ChatState
      reads this
    {
      ChatState(epoch, log, typing)
    }

    /** The text area's `onChange`. */
    method SetInputText(text: string)
      modifies this
      ensures inputText == text
      ensures participants == old(participants) && State() == old(State())
    {
      inputText := text;
    }

    /** `addBot`: the bot is appended to the roster. */
    method AddBot(bot: Participant)
      modifies this
      ensures participants == old(participants) + [bot]
      ensures inputText == old(inputText) && State() == old(State())
    {
      participants := participants + [bot];
    }

    /** `removeBot`: exactly the participants with that id are gone; the rest
        keep their order. */
    method RemoveBot(id: string)
      modifies this
      ensures participants == Filter(old(participants), (p: Participant) => p.id != id)
      ensures inputText == old(inputText) && State() == old(State())
    {
      participants := Filter(participants, (p: Participant) => p.id != id);
    }

    /** `resetChat`, with `confirmed` as the answer to the confirmation
        dialog: a confirmed reset invalidates every running turn by moving
        the epoch on by one, and empties the log and the typing map. */
    method ResetChat(confirmed: bool)
      modifies this
      ensures confirmed ==> State() == ChatState(old(epoch) + 1, [], map[])
      ensures !confirmed ==> State() == old(State())
      ensures participants == old(participants) && inputText == old(inputText)
    {
      if confirmed {
        epoch := epoch + 1;
        log := [];
        typing := map[];
      }
    }

    /** The body of the loop in `triggerBotReplies` for `bot`, at position
        `i`, once the loop head found the session still current: mark the
        bot as typing, wait, check, call `generateBotReply` with `history`,
        check, append a non-empty reply, clear the typing entry. `called`
        says whether the backend was called, `stop` whether a session check
        left the loop. */
    method BotStep(bot: Participant, roster: seq<Participant>, history: seq<Message>, sessionId: nat,
                   i: nat, oracle: BotOracle, resets: set<Checkpoint>)
      returns (newHistory: seq<Message>, called: bool, stop: bool)
      requires epoch == sessionId && !bot.isUser
      modifies this
      ensures participants == old(participants) && inputText == old(inputText)
      ensures StepEffect(sessionId, bot, Settle(oracle), i, resets, old(State()), history, State(),
                         newHistory, called, stop)
    {
      newHistory, called, stop := history, false, false;
      ghost var typing0 := typing;
      typing := typing[bot.id := true];
      // the thinking delay
      if Thinking(i) in resets {
        ResetChat(true);
      }
      // 2. the check after the delay
      if epoch != sessionId {
        typing := typing - {bot.id};
        stop := true;
        return;
      }
      called := true;
      var reply := GenerateBotReply(bot, roster, history, oracle.attempts);
      // the wait for the backend
      if Generating(i) in resets {
        ResetChat(true);
      }
      match reply.generation.outcome {
        case Returned(responseText) =>
          // 3. the check after the call; the `finally` block then does nothing
          if epoch != sessionId {
            typing := typing - {bot.id};
            stop := true;
            return;
          }
          if responseText != "" {
            var newBotMsg := Message(oracle.replyId, bot.id, responseText, oracle.replyTime, None);
            assert StepReply(bot, Settle(oracle)) == [newBotMsg];
            log := log + [newBotMsg];
            newHistory := newHistory + [newBotMsg];
          }
        case Threw(_) =>
      }
      // the `finally` block
      if epoch == sessionId {
        typing := typing - {bot.id};
        assert typing == typing0 - {bot.id};
      }
    }

    /** `triggerBotReplies(currentHistory, sessionId)` over the roster as it
        is now. `order` is the shuffle of its bots, `oracles[i]` the backend's
        behaviour and the fresh id and timestamp for position `i`, and
        `resets` the checkpoints at which the user confirms a reset. The
        turn ends in the state `TurnOutcome` gives; `visited` counts the
        bots it marked as typing and `calls` holds the local history each
        call of `generateBotReply` was given. */
    method TriggerBotReplies(currentHistory: seq<Message>, sessionId: nat, order: seq<Participant>,
                             oracles: seq<BotOracle>, resets: set<Checkpoint>)
      returns (visited: nat, calls: seq<seq<Message>>)
      requires IsShuffleOf(order, participants) && |oracles| == |order|
      modifies this
      ensures TurnResult(State(), visited, calls) ==
              TurnOutcome(old(State()), sessionId, currentHistory, order, SettleAll(oracles), resets)
      ensures participants == old(participants) && inputText == old(inputText)
    {
      ghost var s0 := State();
      var roster := participants;
      var mutableHistory := currentHistory;
      ghost var steps := SettleAll(oracles);
      ghost var n := |order|;
      ghost var k := FirstReset(resets, 0, n);
      visited, calls := 0, [];
      var i := 0;
      while i < |order|
        invariant 0 <= i <= n && visited == i
        invariant participants == roster == old(participants) && inputText == old(inputText)
        invariant s0.epoch != sessionId ==> i == 0 && State() == s0 && calls == []
        invariant s0.epoch == sessionId && epoch == sessionId ==>
          i <= k && Running(s0, currentHistory, order, steps, i, State(), mutableHistory, calls)
        invariant s0.epoch == sessionId && epoch != sessionId ==>
          Stopped(s0, currentHistory, order, steps, resets, State(), visited, calls)
      {
        // 1. the loop head's session check
        if epoch != sessionId {
          break;
        }
        ghost var t, calls0 := State(), calls;
        var given := mutableHistory;
        visited := visited + 1;
        ShuffledBot(order, roster, i);
        assert steps[i] == Settle(oracles[i]);
        var called, stop;
        mutableHistory, called, stop := BotStep(order[i], roster, mutableHistory, sessionId, i, oracles[i], resets);
        if called {
          calls := calls + [given];
        }
        Advance(s0, sessionId, currentHistory, order, steps, resets, i, t, given, calls0,
                State(), mutableHistory, called, stop);
        if stop {
          break;
        }
        i := i + 1;
      }
      TurnEnds(s0, sessionId, currentHistory, order, steps, resets, State(), mutableHistory, visited, calls);
    }

    /** `handleSendMessage`, with `msgId` and `now` as the fresh id and the
        timestamp of the user's message and the remaining parameters as the
        oracles of the turn it starts. Blank input or a roster without a
        user changes nothing; otherwise the trimmed input is appended as the
        user's message, the input is cleared, and a turn runs over the log
        with that message, under the current epoch. */
    method HandleSendMessage(msgId: string, now: int, order: seq<Participant>,
                             oracles: seq<BotOracle>, resets: set<Checkpoint>)
      returns (sent: Option<Message>, visited: nat, calls: seq<seq<Message>>)
      requires IsShuffleOf(order, participants) && |oracles| == |order|
      modifies this
      ensures participants == old(participants)
      ensures Trim(old(inputText)) == "" || UserIndex(old(participants)) == |old(participants)| ==>
        sent == None && visited == 0 && calls == [] &&
        inputText == old(inputText) && State() == old(State())
      ensures Trim(old(inputText)) != "" && UserIndex(old(participants)) < |old(participants)| ==>
        var msg := Message(msgId, old(participants)[UserIndex(old(participants))].id,
                           Trim(old(inputText)), now, None);
        sent == Some(msg) && inputText == "" &&
        TurnResult(State(), visited, calls) ==
          TurnOutcome(ChatState(old(epoch), old(log) + [msg], old(typing)), old(epoch),
                      old(log) + [msg], order, SettleAll(oracles), resets)
    {
      sent, visited, calls := None, 0, [];
      if Trim(inputText) == "" {
        return;
      }
      var u := UserIndex(participants);
      if u == |participants| {
        return;
      }
      var newUserMsg := Message(msgId, participants[u].id, Trim(inputText), now, None);
      var history := log + [newUserMsg];
      log := log + [newUserMsg];
      inputText := "";
      sent := Some(newUserMsg);
      visited, calls := TriggerBotReplies(history, epoch, order, oracles, resets);
    }
  }
}
