/** The App component of App.tsx as a state machine: the character, the game
    state, the configuration, the screen, the request and dice flags, the
    pending and last actions and the starting-skill selection. Every handler
    of the component is a method; what each leaves behind is a function of
    the state before it (`Act`, `AfterRoll`, `Processed`, `Started`), and
    the invariant `Inv` is proved to survive each of them. What the
    service calls resolve to, the random draws and the generated picture are
    parameters. */
module Session {
  import opened Wrappers
  import opened Types
  import opened Text
  import opened Skills
  import opened GameRules
  import opened OracleReply
  import opened OracleClient
  import OracleFunction

  /** `pendingAction`: the action text and the context captured with it. */
  datatype Pending = Pending(text: string, context: Context)

  /** `lastAction`. */
  datatype LastAction = LastAction(text: string, isCustom: bool)

  /** The component's state as one value. `notification` names the learned
      skill the banner announces. */
  datatype AppState = AppState(
    character: Character,
    gameState: GameState,
    config: GameConfig,
    menuStep: MenuStep,
    loading: bool,
    showRetry: bool,
    showTutorial: bool,
    showDice: bool,
    pendingAction: Option<Pending>,
    lastAction: Option<LastAction>,
    selectedSkills: seq<Skill>,
    tempClass: Option<CharacterClass>,
    currentMood: MusicMood,
    notification: Option<Skill>,
    customAction: string)

  /** The state the component mounts with (App.tsx:57-89). */
  const InitialGameState: GameState := GameState("", [], None, false, [], 1, None, 0)
  const InitialConfig: GameConfig := GameConfig(Medium, ClassicHigh, CompleteMode)

  /** What holds between any two handlers: hp and mp in range, the history
      window and the learning counter bounded, no duplicate skill ids, a
      roll only in play with an action waiting for it and never during a
      request,
      and on the skills screen a class chosen and a selection within budget. */
  predicate Inv(s: AppState) {
    && 0 <= s.character.hp <= s.character.maxHp
    && 0 <= s.character.mp <= s.character.maxMp
    && |s.gameState.history| <= HistoryLimit
    && 0 <= s.gameState.skillsLearnedCount <= 3
    && UniqueIds(s.character.skills)
    && UniqueIds(s.selectedSkills)
    && (s.showDice ==> s.pendingAction.Some? && s.menuStep == Playing)
    && !(s.loading && s.showDice)
    && (s.menuStep == SkillsStep ==>
          s.tempClass.Some? && WithinBudget(s.selectedSkills, GetSkillBudget(s.config.length)))
  }

  // ------------------------------------------------------ handleAction

  /** `handleAction` (App.tsx:248-290) given the validator's outcome `v`
      (used only for free text). Dropped input changes nothing; otherwise
      the action becomes the last action and the old rejection is cleared;
      a validator failure sets the retry flag, an implausible verdict
      shows the rejection, and anything else waits for the dice with the
      context of this moment. While the validator is awaited the loading
      effect hides the retry button (App.tsx:128-130). The retry flag set on
      failure draws nothing: the button is rendered only while a request is
      under way (App.tsx:855-872). */
  function Act(s: AppState, text: string, isCustom: bool, v: Result<ValidationResponse>): AppState
  {
    if !AcceptsInput(text, s.loading, s.showDice) then s
    else
      var base := s.(lastAction := Some(LastAction(text, isCustom)),
                     gameState := s.gameState.(rejectionMessage := None),
                     showRetry := if isCustom then false else s.showRetry);
      if isCustom && v.Err? then base.(showRetry := true)
      else if isCustom && !v.value.isPlausible then
        base.(gameState := base.gameState.(rejectionMessage := Some(RejectionFrom(v.value))))
      else base.(pendingAction := Some(Pending(text, ContextOf(s.character, s.gameState, s.config))), showDice := true)
  }

  /** What `Act` promises: the guard, the bookkeeping, and the three ways
      an accepted action ends. */
  lemma ActMeaning(s: AppState, text: string, isCustom: bool, v: Result<ValidationResponse>)
    ensures !AcceptsInput(text, s.loading, s.showDice) ==> Act(s, text, isCustom, v) == s
    ensures AcceptsInput(text, s.loading, s.showDice) ==>
      && Act(s, text, isCustom, v).lastAction == Some(LastAction(text, isCustom))
      && !Act(s, text, isCustom, v).loading
      && Act(s, text, isCustom, v).character == s.character
      && Act(s, text, isCustom, v).gameState.(rejectionMessage := None) == s.gameState.(rejectionMessage := None)
    ensures AcceptsInput(text, s.loading, s.showDice) && (!isCustom || (v.Ok? && v.value.isPlausible)) ==>
      && Act(s, text, isCustom, v).pendingAction == Some(Pending(text, ContextOf(s.character, s.gameState, s.config)))
      && Act(s, text, isCustom, v).showDice
      && Act(s, text, isCustom, v).gameState.rejectionMessage.None?
    ensures AcceptsInput(text, s.loading, s.showDice) && isCustom && v.Ok? && !v.value.isPlausible ==>
      && Act(s, text, isCustom, v).gameState.rejectionMessage == Some(RejectionFrom(v.value))
      && Act(s, text, isCustom, v).pendingAction == s.pendingAction
      && !Act(s, text, isCustom, v).showDice
    ensures AcceptsInput(text, s.loading, s.showDice) && isCustom && v.Err? ==>
      && Act(s, text, isCustom, v).showRetry
      && Act(s, text, isCustom, v).pendingAction == s.pendingAction
      && !Act(s, text, isCustom, v).showDice
      && Act(s, text, isCustom, v).gameState.rejectionMessage.None?
  {
  }

  lemma ActKeepsInv(s: AppState, text: string, isCustom: bool, v: Result<ValidationResponse>)
    requires Inv(s) && s.menuStep == Playing
    ensures Inv(Act(s, text, isCustom, v))
  {
  }

  // --------------------------------------------------- processResponse

  /** `processResponse` (App.tsx:192-246) for a reply `res` and the scene
      image `img`: the mood, the drawn skill and its banner, the committed
      game state with the new image, the character update when there is a
      status update, and the request over. */
  function Processed(catalog: seq<Skill>, s: AppState, res: AIResponse, r1: real, r2: real, rIdx: real, img: ImageRef): AppState
    requires 0.0 <= rIdx < 1.0
  {
    var drawn := Drawn(catalog, res, s.gameState, s.character, s.config, r1, r2, rIdx);
    s.(currentMood := if res.musicMood.Some? then res.musicMood.value else s.currentMood,
       gameState := CommitTurn(s.gameState, res, drawn.Some?).(currentImage := Some(img)),
       notification := if drawn.Some? then drawn else s.notification,
       character := if res.statusUpdate.Some? then ApplyStatus(s.character, res.statusUpdate.value, res.itemsFound, drawn) else s.character,
       loading := false,
       showRetry := false)
  }

  /** What `Processed` promises: the committed turn with the new image, the
      character updated only when there is a status update, the banner only
      for a drawn skill, the mood only when one is reported, the request
      over, and nothing else touched. */
  lemma ProcessedMeaning(catalog: seq<Skill>, s: AppState, res: AIResponse, r1: real, r2: real, rIdx: real, img: ImageRef)
    requires 0.0 <= rIdx < 1.0
    ensures var t := Processed(catalog, s, res, r1, r2, rIdx, img);
      var drawn := Drawn(catalog, res, s.gameState, s.character, s.config, r1, r2, rIdx);
      && t.gameState == CommitTurn(s.gameState, res, drawn.Some?).(currentImage := Some(img))
      && t.character == (if res.statusUpdate.Some? then ApplyStatus(s.character, res.statusUpdate.value, res.itemsFound, drawn) else s.character)
      && t.notification == (if drawn.Some? then drawn else s.notification)
      && t.currentMood == (if res.musicMood.Some? then res.musicMood.value else s.currentMood)
      && !t.loading && !t.showRetry
      && t.(gameState := s.gameState, character := s.character, currentMood := s.currentMood,
            notification := s.notification, loading := s.loading, showRetry := s.showRetry) == s
  {
  }

  /** A reply keeps the invariant: hp and mp are clamped, the history is a
      window, a skill is counted only below the game's cap, and a drawn
      skill is one the character does not know. */
  lemma ProcessedKeepsInv(catalog: seq<Skill>, s: AppState, res: AIResponse, r1: real, r2: real, rIdx: real, img: ImageRef)
    requires 0.0 <= rIdx < 1.0
    requires Inv(s)
    ensures Inv(Processed(catalog, s, res, r1, r2, rIdx, img))
  {
    var drawn := Drawn(catalog, res, s.gameState, s.character, s.config, r1, r2, rIdx);
    DrawnMeaning(catalog, res, s.gameState, s.character, s.config, r1, r2, rIdx);
    HistoryWindow(s.gameState, res, drawn.Some?);
    if res.statusUpdate.Some? {
      ApplyKeepsUnique(s.character, res.statusUpdate.value, res.itemsFound, drawn);
    }
  }

  // ------------------------------------------------------ onDiceResult

  /** `onDiceResult` (App.tsx:292-309) given what `makeChoice` returned.
      The dice always closes. With no pending action nothing else happens;
      a failed turn keeps the pending action and sets the retry flag, which
      draws no button once the request is over (App.tsx:855-872);
      a successful one is processed and then clears the pending action and
      the text box. */
  function AfterRoll(catalog: seq<Skill>, s: AppState, out: Result<AIResponse>, r1: real, r2: real, rIdx: real, img: ImageRef): AppState
    requires 0.0 <= rIdx < 1.0
  {
    if s.pendingAction.None? then s.(showDice := false)
    else match out
      case Err(_) => s.(showDice := false, loading := false, showRetry := true)
      case Ok(res) =>
        Processed(catalog, s.(showDice := false, loading := true, showRetry := false), res, r1, r2, rIdx, img)
          .(customAction := [], pendingAction := None)
  }

  /** What `AfterRoll` promises: the dice closes; a roll with nothing
      pending changes nothing else; a failed turn keeps the pending action
      and sets the retry flag; a successful one ends the request and clears the
      pending action and the text box. */
  lemma AfterRollMeaning(catalog: seq<Skill>, s: AppState, out: Result<AIResponse>, r1: real, r2: real, rIdx: real, img: ImageRef)
    requires 0.0 <= rIdx < 1.0
    ensures var t := AfterRoll(catalog, s, out, r1, r2, rIdx, img);
      && !t.showDice
      && (s.pendingAction.None? ==> t == s.(showDice := false))
      && (s.pendingAction.Some? && out.Err? ==>
            t == s.(showDice := false, loading := false, showRetry := true))
      && (s.pendingAction.Some? && out.Ok? ==>
            t.pendingAction.None? && t.customAction == [] && !t.loading && !t.showRetry
            && t.character == Processed(catalog, s, out.value, r1, r2, rIdx, img).character
            && t.gameState == Processed(catalog, s, out.value, r1, r2, rIdx, img).gameState)
  {
  }

  /** Closing the dice and starting the request keeps the invariant. */
  lemma RollStartKeepsInv(s: AppState)
    requires Inv(s)
    ensures Inv(s.(showDice := false, loading := true, showRetry := false))
  {
  }

  lemma AfterRollKeepsInv(catalog: seq<Skill>, s: AppState, out: Result<AIResponse>, r1: real, r2: real, rIdx: real, img: ImageRef)
    requires 0.0 <= rIdx < 1.0
    requires Inv(s)
    ensures Inv(AfterRoll(catalog, s, out, r1, r2, rIdx, img))
  {
    if s.pendingAction.Some? && out.Ok? {
      ProcessedKeepsInv(catalog, s.(showDice := false, loading := true, showRetry := false), out.value, r1, r2, rIdx, img);
    }
  }

  // ------------------------------------------------------- a new game

  /** `startGameSimple` (App.tsx:336-351) and `startGameWithSkills`
      (App.tsx:353-381) once the class is known, given what `startNewGame`
      returned: the play screen, a fresh hero of that class and the
      tutorial, then the opening reply processed; on failure back to the
      title screen. The game state is not reset. Raising `loading` runs the
      loading effect, which hides the retry button (App.tsx:128-130), only
      when it was not already raised: a start from the retry button, made
      while loading, keeps the retry flag as it was. The opening is
      processed with the fresh hero, where the source's `processResponse`
      closure still reads the previous `character` (App.tsx:192, 201-202).
      Only the skill draw reads it, behind the gate's `currentAct === 2`,
      and every start the screens allow happens at act 1. */
  function Started(catalog: seq<Skill>, s: AppState, c: CharacterClass, skills: seq<Skill>, withMp: bool,
                   out: Result<AIResponse>, r1: real, r2: real, rIdx: real, img: ImageRef): AppState
    requires 0.0 <= rIdx < 1.0
  {
    var s1 := s.(loading := true, showRetry := s.loading && s.showRetry, menuStep := Playing,
                 character := NewCharacter(c, skills, withMp), showTutorial := true);
    match out
    case Err(_) => s1.(loading := false, menuStep := Title)
    case Ok(res) => Processed(catalog, s1, res, r1, r2, rIdx, img)
  }

  /** What `Started` promises: a failed opening leaves the fresh hero on the
      title screen with the request over; a successful one is on the play
      screen with the tutorial open, the request over, and the game state
      committed from the opening reply. */
  lemma StartedMeaning(catalog: seq<Skill>, s: AppState, c: CharacterClass, skills: seq<Skill>, withMp: bool,
                       out: Result<AIResponse>, r1: real, r2: real, rIdx: real, img: ImageRef)
    requires 0.0 <= rIdx < 1.0
    ensures var t := Started(catalog, s, c, skills, withMp, out, r1, r2, rIdx, img);
      && (out.Err? ==>
            t == s.(loading := false, showRetry := s.loading && s.showRetry, menuStep := Title,
                    character := NewCharacter(c, skills, withMp), showTutorial := true))
      && (out.Ok? ==>
            && t.menuStep == Playing && t.showTutorial && !t.loading && !t.showRetry
            && t.gameState.history == CommitTurn(s.gameState, out.value, t.gameState.skillsLearnedCount != s.gameState.skillsLearnedCount).history)
  {
  }

  lemma StartedKeepsInv(catalog: seq<Skill>, s: AppState, c: CharacterClass, skills: seq<Skill>, withMp: bool,
                        out: Result<AIResponse>, r1: real, r2: real, rIdx: real, img: ImageRef)
    requires 0.0 <= rIdx < 1.0
    requires Inv(s) && UniqueIds(skills) && !s.showDice
    ensures Inv(Started(catalog, s, c, skills, withMp, out, r1, r2, rIdx, img))
  {
    if out.Ok? {
      ProcessedKeepsInv(catalog, s.(loading := true, showRetry := s.loading && s.showRetry, menuStep := Playing,
                           character := NewCharacter(c, skills, withMp), showTutorial := true),
                        out.value, r1, r2, rIdx, img);
    }
  }

  // ---------------------------------------------------------- retry

  /** While a request is under way, replaying the last action through
      `handleAction` changes nothing at all: its own guard drops it. */
  lemma ReplayWhileLoadingIsDropped(s: AppState, v: Result<ValidationResponse>)
    requires s.loading && s.lastAction.Some?
    ensures Act(s, s.lastAction.value.text, s.lastAction.value.isCustom, v) == s
  {
  }

  /** With the request flag cleared first, the replay of a non-blank last
      action goes through: it is again the last action, and the state ends
      waiting for the dice, showing a rejection, or with the retry flag set. */
  lemma ReplayAfterClearingGoesThrough(s: AppState, v: Result<ValidationResponse>)
    requires Inv(s) && s.menuStep == Playing && s.loading && s.lastAction.Some?
    requires exists i :: 0 <= i < |s.lastAction.value.text| && !IsWhitespace(s.lastAction.value.text[i])
    ensures var t := Act(s.(loading := false, showRetry := false), s.lastAction.value.text, s.lastAction.value.isCustom, v);
      && t.lastAction == s.lastAction
      && !t.loading
      && (t.showDice || t.gameState.rejectionMessage.Some? || t.showRetry)
  {
  }

  // ------------------------------------------------ act on the live path

  /** The client commits whatever act the narrator reports, so the act can
      fall back; had the reply gone through the serverless handler's clamp
      with the current act, the committed act could only stay or rise, and
      never past the third. */
  lemma LivePathDoesNotClamp(gs: GameState, res: AIResponse, learned: bool)
    requires res.statusUpdate.Some? && res.statusUpdate.value.currentAct != 0
    requires 1 <= gs.currentAct <= 3
    ensures CommitTurn(gs, res, learned).currentAct == res.statusUpdate.value.currentAct
    ensures var clamped := OracleFunction.ClampReply(res, Some(gs.currentAct));
      gs.currentAct <= CommitTurn(gs, clamped, learned).currentAct <= 3
  {
  }

  /** A concrete fall-back: in the second act, a reply that reports act 1
      takes the live game back to act 1, the handler's clamp would not. */
  lemma ActFallsBackOnLivePath(gs: GameState, res: AIResponse)
    requires gs.currentAct == 2 && res.statusUpdate.Some? && res.statusUpdate.value.currentAct == 1
    ensures CommitTurn(gs, res, false).currentAct == 1
    ensures CommitTurn(gs, OracleFunction.ClampReply(res, Some(2)), false).currentAct == 2
  {
  }

  // ------------------------------------------------------- the component

  /** The screens a menu button leads to (App.tsx:474, 485, 511, 679, 685,
      705, 795). The skills screen and the play screen are reached only
      through the class choice and the game start. */
  predicate MenuRoute(from: MenuStep, to: MenuStep) {
    || (from == Title && (to == ConfigStep || to == Lore))
    || (from == Lore && to == Title)
    || (from == ConfigStep && (to == Title || to == ClassStep))
    || (from == ClassStep && to == ConfigStep)
    || (from == SkillsStep && to == ClassStep)
  }

  /** The mounted component. Its `useState` hooks (App.tsx:57-89) are the
      fields of the one record `state`; a setter call is a record update of
      that field, and a handler's updates are applied in the order the
      handler makes them. */
  class App {
    var state: AppState
    /** The skill catalog the component imports (`SKILL_DATABASE`). */
    const catalog: seq<Skill>

    predicate Valid()
      reads this
    {
      Inv(state)
    }

    /** The mount state (App.tsx:57-89). */
    constructor ()
      ensures Valid()
      ensures state == AppState(InitialCharacter, InitialGameState, InitialConfig, Title, false, false, false, false,
                                     None, None, [], None, MenuMood, None, "")
      ensures catalog == SkillDatabase
    {
      state := AppState(InitialCharacter, InitialGameState, InitialConfig, Title, false, false, false, false,
                        None, None, [], None, MenuMood, None, "");
      catalog := SkillDatabase;
    }

    /** A menu button that only switches screens. */
    method Navigate(to: MenuStep)
      requires Valid() && MenuRoute(state.menuStep, to)
      modifies this
      ensures Valid()
      ensures state == old(state).(menuStep := to)
    {
      state := state.(menuStep := to);
    }

    /** The mode, theme and length buttons of the configuration screen
      (App.tsx:593, 601, 625, 652). */
    method Configure(cfg: GameConfig)
      requires Valid() && state.menuStep == ConfigStep
      modifies this
      ensures Valid()
      ensures state == old(state).(config := cfg)
    {
      state := state.(config := cfg);
    }

    /** The text box (App.tsx:902). */
    method TypeAction(text: string)
      requires Valid()
      modifies this
      ensures Valid()
      ensures state == old(state).(customAction := text)
    {
      state := state.(customAction := text);
    }

    /** The tutorial's `onComplete` (App.tsx:821). */
    method CloseTutorial()
      requires Valid()
      modifies this
      ensures Valid()
      ensures state == old(state).(showTutorial := false)
    {
      state := state.(showTutorial := false);
    }

    /** The close button of the rejection panel (App.tsx:835). */
    method DismissRejection()
      requires Valid()
      modifies this
      ensures Valid()
      ensures state == old(state).(gameState := old(state.gameState).(rejectionMessage := None))
    {
      state := state.(gameState := state.gameState.(rejectionMessage := None));
    }

    /** The ten-second timeout of the loading effect (App.tsx:136-138). */
    method LoadingTimeout()
      requires Valid() && state.loading
      modifies this
      ensures Valid()
      ensures state == old(state).(showRetry := true)
    {
      state := state.(showRetry := true);
    }

    /** `handleAction` (App.tsx:248-290), called from the play screen's
        choice buttons and text box (App.tsx:889-903); `verdict` is what
        `validateAction` resolves to (OracleClient.GeminiService.ValidateAction
        of the oracle's answer), consulted only for free text. */
    method HandleAction(text: string, isCustom: bool, verdict: Result<ValidationResponse>)
      requires Valid() && state.menuStep == Playing
      modifies this
      ensures state == Act(old(state), text, isCustom, verdict)
      ensures Valid()
    {
      ghost var s := state;
      ActKeepsInv(s, text, isCustom, verdict);
      if AcceptsInput(text, state.loading, state.showDice) {
        var context := ContextOf(state.character, state.gameState, state.config);
        state := state.(loading := true, lastAction := Some(LastAction(text, isCustom)),
                        gameState := state.gameState.(rejectionMessage := None));
        if isCustom {
          state := state.(showRetry := false);
        }
        if isCustom && verdict.Err? {
          state := state.(loading := false, showRetry := true);
        } else if isCustom && !verdict.value.isPlausible {
          state := state.(loading := false,
                          gameState := state.gameState.(rejectionMessage := Some(RejectionFrom(verdict.value))));
        } else {
          state := state.(pendingAction := Some(Pending(text, context)), loading := false, showDice := true);
        }
      }
    }

    /** `processResponse` (App.tsx:192-246); `img` is the picture
        `generatePixelArt` resolves to (OracleClient.PixelArt of the image
        model's answer: it never throws). */
    method ProcessResponse(res: AIResponse, r1: real, r2: real, rIdx: real, img: ImageRef)
      requires Valid() && 0.0 <= rIdx < 1.0
      modifies this
      ensures Valid()
      ensures state == Processed(catalog, old(state), res, r1, r2, rIdx, img)
    {
      ghost var s := state;
      ghost var t := Processed(catalog, s, res, r1, r2, rIdx, img);
      ProcessedKeepsInv(catalog, s, res, r1, r2, rIdx, img);
      var newSkill: Option<Skill> := None;
      if LearnGate(res, state.gameState.skillsLearnedCount, state.gameState.currentAct, state.config.length) {
        newSkill := LearnNewSkill(catalog, state.config.mode, state.character.charClass, state.character.skills, r1, r2, rIdx);
      }
      assert newSkill == Drawn(catalog, res, s.gameState, s.character, s.config, r1, r2, rIdx);
      var mood := if res.musicMood.Some? then res.musicMood.value else state.currentMood;
      var committed := CommitTurn(state.gameState, res, newSkill.Some?);
      var banner := if newSkill.Some? then newSkill else state.notification;
      var hero := if res.statusUpdate.Some? then ApplyStatus(state.character, res.statusUpdate.value, res.itemsFound, newSkill) else state.character;
      state := state.(currentMood := mood, gameState := committed.(currentImage := Some(img)),
                      notification := banner, character := hero, loading := false, showRetry := false);
      assert state == t;
    }

    /** `onDiceResult` (App.tsx:292-309). `reply` is what `makeChoice`
        resolves to, or the error it throws (see
        OracleClient.GeminiService.MakeChoice); it is read only when an action
        is pending. `sent` is the message handed to `makeChoice`: the pending
        text with the roll appended, and the context captured when the action
        was taken, not a fresh one. */
    method OnDiceResult(roll: int, reply: Result<AIResponse>, r1: real, r2: real, rIdx: real,
                        img: ImageRef) returns (sent: Option<Message>)
      requires Valid() && 0.0 <= rIdx < 1.0
      modifies this
      ensures state == AfterRoll(catalog, old(state), reply, r1, r2, rIdx, img)
      ensures Valid()
      ensures old(state.pendingAction).None? ==> sent.None?
      ensures old(state.pendingAction).Some? ==>
        sent == Some(Choice(WithRoll(old(state.pendingAction).value.text, roll), old(state.pendingAction).value.context))
    {
      ghost var s := state;
      AfterRollKeepsInv(catalog, s, reply, r1, r2, rIdx, img);
      state := state.(showDice := false);
      sent := None;
      if state.pendingAction.Some? {
        var p := state.pendingAction.value;
        state := state.(loading := true, showRetry := false);
        sent := Some(Choice(WithRoll(p.text, roll), p.context));
        if reply.Err? {
          state := state.(loading := false, showRetry := true);
        } else {
          RollStartKeepsInv(s);
          ProcessResponse(reply.value, r1, r2, rIdx, img);
          state := state.(customAction := "", pendingAction := None);
        }
      }
    }

    /** `startGameSimple` (App.tsx:336-351): the narrative start, with no
        skills and the initial mana. `reply` is what `startNewGame` resolves
        to; `sent` is the opening message it is handed. */
    method StartGameSimple(c: CharacterClass, reply: Result<AIResponse>, r1: real, r2: real, rIdx: real,
                           img: ImageRef) returns (sent: Message)
      requires Valid() && !state.showDice && 0.0 <= rIdx < 1.0
      modifies this
      ensures Valid()
      ensures state == Started(catalog, old(state), c, [], false, reply, r1, r2, rIdx, img)
      ensures sent == Opening(c, NoSkillsSimplified)
    {
      ghost var t := Started(catalog, state, c, [], false, reply, r1, r2, rIdx, img);
      StartedKeepsInv(catalog, state, c, [], false, reply, r1, r2, rIdx, img);
      state := state.(loading := true, showRetry := state.loading && state.showRetry, menuStep := Playing,
                      character := NewCharacter(c, [], false), showTutorial := true);
      sent := Opening(c, NoSkillsSimplified);
      if reply.Err? {
        state := state.(loading := false, menuStep := Title);
        return;
      }
      ProcessResponse(reply.value, r1, r2, rIdx, img);
      assert state == t;
    }

    /** `startGameWithSkills` (App.tsx:353-381): without a chosen class it
        does nothing and sends nothing; otherwise the tactical start with the
        selected skills and the class's mana, whose opening message lists
        the chosen skills' names and costs. */
    method StartGameWithSkills(reply: Result<AIResponse>, r1: real, r2: real, rIdx: real,
                               img: ImageRef) returns (sent: Option<Message>)
      requires Valid() && !state.showDice && 0.0 <= rIdx < 1.0
      modifies this
      ensures Valid()
      ensures old(state.tempClass).None? ==> state == old(state) && sent.None?
      ensures old(state.tempClass).Some? ==>
        state == Started(catalog, old(state), old(state.tempClass).value, old(state.selectedSkills), true,
                         reply, r1, r2, rIdx, img)
      ensures old(state.tempClass).Some? ==>
        sent == Some(Opening(old(state.tempClass).value, Listed(SkillEntries(old(state.selectedSkills)))))
    {
      if state.tempClass.None? {
        return None;
      }
      var c := state.tempClass.value;
      ghost var t := Started(catalog, state, c, state.selectedSkills, true, reply, r1, r2, rIdx, img);
      StartedKeepsInv(catalog, state, c, state.selectedSkills, true, reply, r1, r2, rIdx, img);
      state := state.(loading := true, showRetry := state.loading && state.showRetry, menuStep := Playing,
                      character := NewCharacter(c, state.selectedSkills, true), showTutorial := true);
      sent := Some(Opening(c, Listed(SkillEntries(state.selectedSkills))));
      if reply.Err? {
        state := state.(loading := false, menuStep := Title);
        return;
      }
      ProcessResponse(reply.value, r1, r2, rIdx, img);
      assert state == t;
    }

    /** `selectClassAndProceed` (App.tsx:311-321): the narrative mode starts
        the game at once; the tactical mode opens the skills screen with an
        empty selection and sends nothing. */
    method SelectClassAndProceed(c: CharacterClass, reply: Result<AIResponse>, r1: real, r2: real, rIdx: real,
                                 img: ImageRef) returns (sent: Option<Message>)
      requires Valid() && state.menuStep == ClassStep && 0.0 <= rIdx < 1.0
      modifies this
      ensures Valid()
      ensures old(state.config).mode == SimpleMode ==>
        && state == Started(catalog, old(state).(tempClass := Some(c)), c, [], false,
                            reply, r1, r2, rIdx, img)
        && sent == Some(Opening(c, NoSkillsSimplified))
      ensures old(state.config).mode == CompleteMode ==>
        state == old(state).(tempClass := Some(c), selectedSkills := [], menuStep := SkillsStep) && sent.None?
    {
      state := state.(tempClass := Some(c));
      if state.config.mode == SimpleMode {
        var opening := StartGameSimple(c, reply, r1, r2, rIdx, img);
        sent := Some(opening);
      } else {
        state := state.(selectedSkills := [], menuStep := SkillsStep);
        sent := None;
        forall t: SkillTier ensures TierCount([], t) == 0 {
        }
      }
    }

    /** A skill button of the skills screen (App.tsx:739-745) calling
        `toggleSkillSelection` (App.tsx:323-334) with the tier's budget as
        the limit and the tier's current count. */
    method ClickSkill(skill: Skill)
      requires Valid() && state.menuStep == SkillsStep
      modifies this
      ensures Valid()
      ensures var b := GetSkillBudget(state.config.length);
        state == old(state).(selectedSkills :=
          ToggleSelection(old(state.selectedSkills), skill, b.At(skill.tier), TierCount(old(state.selectedSkills), skill.tier)))
    {
      var b := GetSkillBudget(state.config.length);
      var toggled := ToggleSelection(state.selectedSkills, skill, b.At(skill.tier), TierCount(state.selectedSkills, skill.tier));
      ToggleKeepsBudget(state.selectedSkills, skill, b);
      ToggleKeepsUnique(state.selectedSkills, skill, b.At(skill.tier), TierCount(state.selectedSkills, skill.tier));
      state := state.(selectedSkills := toggled);
    }

    /** `handleRetry` (App.tsx:383-397), as the retry button calls it: the
        button exists only inside the state.loading overlay of the play screen
        (App.tsx:855-872). With a last action the replay goes through
        `handleAction`, whose guard drops it because a request is under way:
        nothing changes and nothing is sent. Before the first turn it starts
        the game again; otherwise it closes the overlay. */
    method HandleRetry(verdict: Result<ValidationResponse>, reply: Result<AIResponse>, r1: real, r2: real, rIdx: real,
                       img: ImageRef) returns (sent: Option<Message>)
      requires Valid() && state.menuStep == Playing && state.loading && state.showRetry && 0.0 <= rIdx < 1.0
      modifies this
      ensures Valid()
      ensures old(state.lastAction).Some? ==> state == old(state) && sent.None?
      ensures old(state.lastAction).None? && |old(state.gameState).history| == 0 && old(state.tempClass).Some? && old(state.config).mode == SimpleMode ==>
        && state == Started(catalog, old(state), old(state.tempClass).value, [], false,
                            reply, r1, r2, rIdx, img)
        && sent == Some(Opening(old(state.tempClass).value, NoSkillsSimplified))
      ensures old(state.lastAction).None? && |old(state.gameState).history| == 0 && old(state.tempClass).Some? && old(state.config).mode == CompleteMode ==>
        && state == Started(catalog, old(state), old(state.tempClass).value, old(state.selectedSkills), true,
                            reply, r1, r2, rIdx, img)
        && sent == Some(Opening(old(state.tempClass).value, Listed(SkillEntries(old(state.selectedSkills)))))
      ensures old(state.lastAction).None? && (|old(state.gameState).history| != 0 || old(state.tempClass).None?) ==>
        state == old(state).(loading := false, showRetry := false) && sent.None?
    {
      if state.lastAction.Some? {
        HandleAction(state.lastAction.value.text, state.lastAction.value.isCustom, verdict);
        sent := None;
      } else if |state.gameState.history| == 0 && state.tempClass.Some? {
        if state.config.mode == SimpleMode {
          var opening := StartGameSimple(state.tempClass.value, reply, r1, r2, rIdx, img);
          sent := Some(opening);
        } else {
          sent := StartGameWithSkills(reply, r1, r2, rIdx, img);
        }
      } else {
        state := state.(loading := false, showRetry := false);
        sent := None;
      }
    }

    /** `handleRetry` as evidently intended: the stalled request is given
        up (the overlay and its retry button close) before the last action
        is replayed, so the replay is not dropped by the state.loading guard. */
    method HandleRetryCorrected(verdict: Result<ValidationResponse>, reply: Result<AIResponse>, r1: real, r2: real, rIdx: real,
                                img: ImageRef) returns (sent: Option<Message>)
      requires Valid() && state.menuStep == Playing && state.loading && state.showRetry && 0.0 <= rIdx < 1.0
      modifies this
      ensures Valid()
      ensures old(state.lastAction).Some? ==>
        && state == Act(old(state).(loading := false, showRetry := false), old(state.lastAction).value.text,
                             old(state.lastAction).value.isCustom, verdict)
        && sent.None?
      ensures old(state.lastAction).None? && |old(state.gameState).history| == 0 && old(state.tempClass).Some? && old(state.config).mode == SimpleMode ==>
        && state == Started(catalog, old(state), old(state.tempClass).value, [], false,
                            reply, r1, r2, rIdx, img)
        && sent == Some(Opening(old(state.tempClass).value, NoSkillsSimplified))
      ensures old(state.lastAction).None? && |old(state.gameState).history| == 0 && old(state.tempClass).Some? && old(state.config).mode == CompleteMode ==>
        && state == Started(catalog, old(state), old(state.tempClass).value, old(state.selectedSkills), true,
                            reply, r1, r2, rIdx, img)
        && sent == Some(Opening(old(state.tempClass).value, Listed(SkillEntries(old(state.selectedSkills)))))
      ensures old(state.lastAction).None? && (|old(state.gameState).history| != 0 || old(state.tempClass).None?) ==>
        state == old(state).(loading := false, showRetry := false) && sent.None?
    {
      if state.lastAction.Some? {
        state := state.(loading := false, showRetry := false);
        HandleAction(state.lastAction.value.text, state.lastAction.value.isCustom, verdict);
        sent := None;
      } else if |state.gameState.history| == 0 && state.tempClass.Some? {
        if state.config.mode == SimpleMode {
          var opening := StartGameSimple(state.tempClass.value, reply, r1, r2, rIdx, img);
          sent := Some(opening);
        } else {
          sent := StartGameWithSkills(reply, r1, r2, rIdx, img);
        }
      } else {
        state := state.(loading := false, showRetry := false);
        sent := None;
      }
    }
  }

  /** The names and costs of the chosen skills sent with the opening
      message (App.tsx:373). */
  function SkillEntries(skills: seq<Skill>): (e: seq<(string, int)>)
    ensures |e| == |skills|
    ensures forall i :: 0 <= i < |e| ==> e[i] == (skills[i].name, skills[i].manaCost)
  {
    seq(|skills|, i requires 0 <= i < |skills| => (skills[i].name, skills[i].manaCost))
  }
}
