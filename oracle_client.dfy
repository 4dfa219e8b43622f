/** services/geminiService.ts: the client-side oracle glue the game really
    uses. A module-level chat session is replaced by every new game and
    guarded by every turn; unlike the serverless copy, nothing here numbers
    the turns, sends the act or clamps the act of a reply. The narrator's
    replies are parameters. */
module OracleClient {
  import opened Wrappers
  import opened Types
  import opened OracleReply

  /** The messages the client sends on the chat (geminiService.ts:148, 156). */
  datatype Message =
    | Opening(hero: CharacterClass, skills: SkillsList)
    | Choice(choiceText: string, context: Context)

  datatype Turn = Sent(message: Message) | Answered(text: string)

  /** A chat session: the configuration it was created with (it goes into
      the system instruction) and the turns exchanged on it. */
  datatype Chat = Chat(config: GameConfig, turns: seq<Turn>)

  const NoSessionMessage: string := "Sessão não iniciada"

  /** `validateAction` picks the strict instruction exactly in the tactical
      mode (geminiService.ts:121). */
  function ValidatorFor(mode: GameMode): (i: Instruction)
    ensures i == Strict <==> mode == CompleteMode
  {
    if mode == CompleteMode then Strict else Lenient
  }

  /** `generatePixelArt` (geminiService.ts:161-179): the first inline part
      as a PNG; with none, and on any error, the grayscale placeholder. It
      never fails and never yields the random placeholder. */
  function PixelArt(reply: Result<seq<Part>>): (img: ImageRef)
    ensures img.InlinePng? <==> reply.Ok? && FirstInline(reply.value).Some?
    ensures img.InlinePng? ==> img.base64 == FirstInline(reply.value).value
    ensures !img.InlinePng? ==> img == GrayscalePlaceholder
  {
    if reply.Ok? && FirstInline(reply.value).Some? then InlinePng(FirstInline(reply.value).value)
    else GrayscalePlaceholder
  }

  /** The chat once `makeChoice` has sent `choiceText` and `context` and
      received `reply`: a missing chat stays missing, a failed call adds
      nothing, an answered one adds the exchange at the end. */
  function ChatAfterChoice(chat: Option<Chat>, choiceText: string, context: Context, reply: Result<string>): Option<Chat> {
    if chat.None? || reply.Err? then chat
    else Some(chat.value.(turns := chat.value.turns + [Sent(Choice(choiceText, context)), Answered(reply.value)]))
  }

  /** The module state of geminiService.ts: `gameChat`, null until a game
      starts; and the JSON parsers the replies go through. */
  class GeminiService {
    var gameChat: Option<Chat>
    const parseNarrative: string -> Option<AIResponse>
    const parseVerdict: string -> Option<ValidationResponse>

    /** geminiService.ts:118. */
    constructor (parseNarrative: string -> Option<AIResponse>, parseVerdict: string -> Option<ValidationResponse>)
      ensures gameChat == None
      ensures this.parseNarrative == parseNarrative && this.parseVerdict == parseVerdict
    {
      gameChat := None;
      this.parseNarrative := parseNarrative;
      this.parseVerdict := parseVerdict;
    }

    /** `validateAction` (geminiService.ts:120-133): the verdict parsed
        from the reply; a failed call fails with its error. */
    function ValidateAction(reply: Result<string>): (out: Result<ValidationResponse>)
      ensures reply.Err? ==> out == Err(reply.message)
      ensures reply.Ok? ==> out == SafeParseJson(reply.value, parseVerdict)
    {
      match reply
      case Err(m) => Err(m)
      case Ok(text) => SafeParseJson(text, parseVerdict)
    }

    /** What `startNewGame` returns for a reply: the parsed narration, or
        the call's error. */
    function OpeningResult(reply: Result<string>): (out: Result<AIResponse>)
      ensures reply.Err? ==> out == Err(reply.message)
      ensures reply.Ok? ==> out == SafeParseJson(reply.value, parseNarrative)
    {
      match reply
      case Err(m) => Err(m)
      case Ok(text) => SafeParseJson(text, parseNarrative)
    }

    /** What `makeChoice` returns for a reply, given the current chat. */
    function ChoiceResult(reply: Result<string>): (out: Result<AIResponse>)
      reads this
      ensures gameChat.None? ==> out == Err(NoSessionMessage)
      ensures gameChat.Some? && reply.Err? ==> out == Err(reply.message)
      ensures gameChat.Some? && reply.Ok? ==> out == SafeParseJson(reply.value, parseNarrative)
    {
      if gameChat.None? then Err(NoSessionMessage)
      else if reply.Err? then Err(reply.message)
      else SafeParseJson(reply.value, parseNarrative)
    }

    /** `startNewGame` (geminiService.ts:135-151): a fresh chat replaces
        any previous one before the opening message is sent, so the old
        conversation is gone even when the call then fails. */
    method StartNewGame(hero: CharacterClass, config: GameConfig, skills: SkillsList, reply: Result<string>)
      returns (out: Result<AIResponse>)
      modifies this
      ensures reply.Err? ==> gameChat == Some(Chat(config, []))
      ensures reply.Ok? ==> gameChat == Some(Chat(config, [Sent(Opening(hero, skills)), Answered(reply.value)]))
      ensures out == OpeningResult(reply)
    {
      gameChat := Some(Chat(config, []));
      if reply.Err? {
        return Err(reply.message);
      }
      gameChat := Some(Chat(config, [Sent(Opening(hero, skills)), Answered(reply.value)]));
      out := SafeParseJson(reply.value, parseNarrative);
    }

    /** `makeChoice` (geminiService.ts:153-159): without a chat it fails
        with "Sessão não iniciada" and sends nothing; otherwise the message
        carries only the choice and the context, and the parsed reply is
        returned as is, act included. */
    method MakeChoice(choiceText: string, context: Context, reply: Result<string>)
      returns (out: Result<AIResponse>)
      modifies this
      ensures old(gameChat).None? ==> gameChat == None && out == Err(NoSessionMessage)
      ensures old(gameChat).Some? && reply.Err? ==> gameChat == old(gameChat) && out == Err(reply.message)
      ensures old(gameChat).Some? && reply.Ok? ==>
        gameChat == Some(old(gameChat).value.(turns := old(gameChat).value.turns + [Sent(Choice(choiceText, context)), Answered(reply.value)]))
      ensures out == old(ChoiceResult(reply))
      ensures gameChat == ChatAfterChoice(old(gameChat), choiceText, context, reply)
    {
      if gameChat.None? {
        return Err(NoSessionMessage);
      }
      if reply.Err? {
        return Err(reply.message);
      }
      var chat := gameChat.value;
      gameChat := Some(chat.(turns := chat.turns + [Sent(Choice(choiceText, context)), Answered(reply.value)]));
      out := SafeParseJson(reply.value, parseNarrative);
    }
  }
}
