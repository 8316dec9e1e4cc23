/** The "add member" form of the bot manager panel: its state, and
    `handleCreateBot`, which validates the trimmed name and persona prompt
    and hands a new bot participant to the application. */
module BotManager {
  import opened Types
  import opened JsString
  import opened GeminiService
  import opened TurnSpec
  import opened App

  /** The avatars the form offers; the first one is preselected. */
  const PresetAvatars: seq<string> := [
    "https://api.dicebear.com/9.x/adventurer/svg?seed=Alex",
    "https://api.dicebear.com/9.x/adventurer/svg?seed=Sarah",
    "https://api.dicebear.com/9.x/adventurer/svg?seed=Max",
    "https://api.dicebear.com/9.x/adventurer/svg?seed=Luna",
    "https://api.dicebear.com/9.x/adventurer/svg?seed=Oliver",
    "https://api.dicebear.com/9.x/adventurer/svg?seed=Zoe",
    "https://api.dicebear.com/9.x/adventurer/svg?seed=Milo",
    "https://api.dicebear.com/9.x/adventurer/svg?seed=Chloe"
  ]

  /** The colours a new bot is given one of at random. */
  const Colors: seq<string> := [
    "#ef4444", "#f97316", "#eab308", "#22c55e", "#06b6d4", "#8b5cf6", "#d946ef"
  ]

  /** `Math.floor(pick * COLORS.length)` for a `pick` that `Math.random()`
      can return, computed on the reals. */
  function ColorIndex(pick: real): (r: nat)
    requires 0.0 <= pick < 1.0
    ensures r < |Colors|
    ensures r as real <= pick * |Colors| as real < r as real + 1.0
  {
    var f := (pick * |Colors| as real).Floor;
    assert 0 <= f < |Colors|;
    f
  }

  /** The bot `handleCreateBot` builds from the form's fields, with `id` the
      fresh id and `pick` the random number for the colour; `None` when the
      trimmed name or the trimmed prompt is empty. */
  function NewBot(name: string, prompt: string, avatar: string, id: string, pick: real): Option<Participant>
    requires 0.0 <= pick < 1.0
  {
    if Trim(name) == "" || Trim(prompt) == "" then None
    else Some(Participant(id, Trim(name), avatar, false, Some(Trim(prompt)), Colors[ColorIndex(pick)]))
  }

  /** The create button is enabled as soon as both fields are non-empty,
      before trimming. */
  predicate CreateEnabled(name: string, prompt: string) {
    name != "" && prompt != ""
  }

  /** Creation is refused exactly when the name or the prompt is nothing but
      white space (the empty string included). */
  lemma NewBotRefusedIff(name: string, prompt: string, avatar: string, id: string, pick: real)
    requires 0.0 <= pick < 1.0
    ensures NewBot(name, prompt, avatar, id, pick) == None <==> AllWhiteSpace(name) || AllWhiteSpace(prompt)
  {
    TrimEmptyIff(name);
    TrimEmptyIff(prompt);
  }

  /** The enabled button does not imply a bot: a name of white space only
      passes the button's check and is still refused. */
  lemma EnabledButRefused(name: string, prompt: string, avatar: string, id: string, pick: real)
    requires 0.0 <= pick < 1.0
    requires name != "" && AllWhiteSpace(name) && prompt != ""
    ensures CreateEnabled(name, prompt)
    ensures NewBot(name, prompt, avatar, id, pick) == None
  {
    TrimEmptyIff(name);
  }

  /** A created bot is a bot, with the given id and avatar, one of the seven
      colours, and a name and persona that are the trimmed inputs: non-empty
      and with no white space at either end. */
  lemma NewBotShape(name: string, prompt: string, avatar: string, id: string, pick: real)
    requires 0.0 <= pick < 1.0
    ensures var r := NewBot(name, prompt, avatar, id, pick);
      r.Some? ==>
        var b := r.value;
        !b.isUser && b.id == id && b.avatar == avatar && b.color in Colors &&
        b.name == Trim(name) && b.name != "" && Trim(b.name) == b.name &&
        b.systemInstruction == Some(Trim(prompt)) && Trim(prompt) != "" &&
        Trim(Trim(prompt)) == Trim(prompt)
  {
    TrimIdempotent(name);
    TrimIdempotent(prompt);
  }

  /** The persona a created bot is prompted with is its trimmed prompt, not
      the default instruction. */
  lemma NewBotPersona(name: string, prompt: string, avatar: string, id: string, pick: real)
    requires 0.0 <= pick < 1.0
    requires NewBot(name, prompt, avatar, id, pick).Some?
    ensures Instruction(NewBot(name, prompt, avatar, id, pick).value) == Trim(prompt)
  {
  }

  /** A bot added to the roster is the last bot every later turn shuffles. */
  lemma {:induction false} AddedBotJoinsTurns(roster: seq<Participant>, bot: Participant)
    requires !bot.isUser
    ensures Bots(roster + [bot]) == Bots(roster) + [bot]
  {
    FilterAppend(roster, [bot], (p: Participant) => !p.isUser);
    assert Filter([bot], (p: Participant) => !p.isUser) == [bot] + Filter([], (p: Participant) => !p.isUser);
  }

  /** The form's state. */
  class BotForm {
    var isAdding: bool
    var newBotName: string
    var newBotPrompt: string
    var selectedAvatar: string

    constructor ()
      ensures !isAdding && newBotName == "" && newBotPrompt == ""
      ensures selectedAvatar == PresetAvatars[0]
    {
      isAdding := false;
      newBotName := "";
      newBotPrompt := "";
      selectedAvatar := PresetAvatars[0];
    }

    /** `handleCreateBot`, with `id` as the fresh id and `pick` as the
        random number for the colour. A refused creation changes nothing;
        otherwise the bot is appended to `app`'s roster once and the form is
        cleared and closed, keeping the selected avatar. */
    method HandleCreateBot(app: ChatApp, id: string, pick: real) returns (created: Option<Participant>)
      requires 0.0 <= pick < 1.0
      modifies this, app
      ensures created == NewBot(old(newBotName), old(newBotPrompt), old(selectedAvatar), id, pick)
      ensures app.inputText == old(app.inputText) && app.State() == old(app.State())
      ensures created == None ==>
        app.participants == old(app.participants) &&
        newBotName == old(newBotName) && newBotPrompt == old(newBotPrompt) &&
        isAdding == old(isAdding) && selectedAvatar == old(selectedAvatar)
      ensures created.Some? ==>
        app.participants == old(app.participants) + [created.value] &&
        newBotName == "" && newBotPrompt == "" && !isAdding && selectedAvatar == old(selectedAvatar)
    {
      created := None;
      if Trim(newBotName) == "" || Trim(newBotPrompt) == "" {
        return;
      }
      var newBot := Participant(id, Trim(newBotName), selectedAvatar, false, Some(Trim(newBotPrompt)),
                                Colors[ColorIndex(pick)]);
      app.AddBot(newBot);
      created := Some(newBot);
      newBotName := "";
      newBotPrompt := "";
      isAdding := false;
    }
  }
}
