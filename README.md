# Crônicas de Aethelgard — a model of the game-session controller

Crônicas de Aethelgard is a browser RPG narrated by a language model. The
player picks a mode (simple narrative or complete tactical), a theme, a
length and a class (Guerreiro, Mago, Ladino). In the tactical mode the player
also picks starting skills from a tiered catalog, within a per-length budget.
Each turn then goes like this:

- The player types an action or clicks a choice.
- A free-text action is first judged for plausibility by a validator.
- The player rolls a d20.
- The action, the roll and a context summary go to the narrator.
- The narrator's JSON reply is parsed, repaired if truncated, and applied to
  the hero (hp, mp, gold, xp, items), the story, the act and the game-over
  flag.
- Now and then a new skill is drawn from the catalog.

This project models that controller:

- the App component's state and handlers (`Session`), with the pure
  game rules beneath them (`GameRules`);
- the skill catalog (`Skills`) and the shared types (`Types`);
- the reply-parsing glue the two oracle layers share (`OracleReply`);
- the client-side service (`OracleClient`, services/geminiService.ts) and
  the serverless endpoint with its per-session history
  (`OracleFunction`, netlify/functions/gemini.ts);
- three components with behaviour: the dice (`Dice`), the character card
  (`CharacterCard`) and the tutorial (`Tutorial`).

`Seqs`, `Text` and `Wrappers` hold the sequence and string helpers (`trim`,
`toLowerCase`, `includes`, number formatting) and `Option`/`Result`.

State that the source updates in place is a class:

- the mounted App;
- the dice, the tutorial and the skill panel of the card;
- the service's `gameChat`;
- the endpoint's session map.

Each method's `ensures` ties the new state to a function of the old one
(`Act`, `Processed`, `AfterRoll`, `Started`). Lemmas state what those
functions mean and prove that the App invariant `Inv` survives each of them.
The App keeps its `useState` hooks as the fields of one record `state`. A
setter call is a record update, applied in the order the handler makes its
calls.

Some things are parameters of the methods rather than part of the model:

- what the narrator, the validator and the image generator answer;
- the JSON parser;
- the values of `Math.random` and `Date.now`.

The App's handlers take what the service call resolved to and return the
message they would have sent.

Some behaviours of the code are easy to miss, and the model keeps them:

- **The live client does not protect the act.** The game calls the
  client-side service, and the client commits whatever act a reply reports
  (App.tsx:209). So a reply can move the act backwards
  (`Session.LivePathDoesNotClamp`, `Session.ActFallsBackOnLivePath`). Only
  the serverless copy raises the act to the current one and caps it at 3
  (netlify/functions/gemini.ts:242-249).
- **`isGameOver` is not sticky.** Every reply overwrites it (App.tsx:210,
  `GameRules.GameOverNotSticky`).
- **The dice code only tells a 20 and a 1 apart.** The narrator's prompt
  has four bands (netlify/functions/gemini.ts:24-27). The dice's sound,
  colour and label separate only those two faces (DiceRoll.tsx:31-33,
  44-49, 72-73; `Dice.CodeCoarserThanPrompt`).
- **A retry does not replay the stored context.** It re-enters
  `handleAction` (App.tsx:385-386), which builds a fresh context
  (App.tsx:255-263).
- **After a failed turn the retry flag is set but no button appears.** The
  button is drawn only while a request is under way (App.tsx:855-872), and
  a failure ends the request (App.tsx:286-287, 306-307).

## Model

| member | source | states |
|---|---|---|
| Types.Resolve | types.ts:48-48 | a class name resolves to a class exactly when it is one of the three class strings, and then to that class |
| Types.EnumerationSizes | types.ts:3-11 | the mode, tier, class and length enumerations have exactly 2, 3, 3 and 4 distinct values |
| Text.Contains | components/CharacterCard.tsx:29-51 | `includes` holds exactly when the keyword occurs at some position |
| Text.TrimStart | App.tsx:249-249 | the result is a suffix starting with a non-blank, and everything removed is whitespace |
| Text.TrimEnd | App.tsx:249-249 | the result is a prefix ending with a non-blank, and everything removed is whitespace |
| Text.TrimEmptyIffBlank | App.tsx:249-249 | a trimmed text is empty exactly when every character is whitespace |
| Text.ToLower | components/CharacterCard.tsx:30-30 | lowering keeps the length and maps every character by the per-character lowering |
| Text.ToLowerIdempotent | components/CharacterCard.tsx:30-30 | lowering twice is lowering once |
| Text.NatToString | App.tsx:297-297 | the decimal rendering is non-empty, made of digits, without a leading zero |
| Text.NatToStringRoundTrip | App.tsx:297-297 | reading the rendered digits back gives the number |
| Text.OrText | netlify/functions/gemini.ts:239-239 | `x \|\| d` for text: a non-empty value wins, otherwise the default |
| Skills.IdPrefix | data/skills.ts:4-81 | every id prefix (class letter, tier letter) has four characters |
| Skills.IdPrefixInjective | data/skills.ts:4-81 | distinct (class, tier) pairs have distinct id prefixes |
| Skills.WarriorSimpleShape | data/skills.ts:7-16 | ten warrior simple skills, all owned by Guerreiro and of the simple tier, with ids of that prefix |
| Skills.WarriorSimpleUnique | data/skills.ts:7-16 | no two of them share an id |
| Skills.WarriorMediumShape | data/skills.ts:19-23 | five warrior medium skills of that class and tier |
| Skills.WarriorMediumUnique | data/skills.ts:19-23 | no two share an id |
| Skills.WarriorAdvancedShape | data/skills.ts:26-30 | five warrior advanced skills of that class and tier |
| Skills.WarriorAdvancedUnique | data/skills.ts:26-30 | no two share an id |
| Skills.MageSimpleShape | data/skills.ts:34-43 | ten mage simple skills of that class and tier |
| Skills.MageSimpleUnique | data/skills.ts:34-43 | no two share an id |
| Skills.MageMediumShape | data/skills.ts:46-50 | five mage medium skills of that class and tier |
| Skills.MageMediumUnique | data/skills.ts:46-50 | no two share an id |
| Skills.MageAdvancedShape | data/skills.ts:53-57 | five mage advanced skills of that class and tier |
| Skills.MageAdvancedUnique | data/skills.ts:53-57 | no two share an id |
| Skills.RogueSimpleShape | data/skills.ts:61-68 | eight rogue simple skills of that class and tier |
| Skills.RogueSimpleUnique | data/skills.ts:61-68 | no two share an id |
| Skills.RogueMediumShape | data/skills.ts:71-74 | four rogue medium skills of that class and tier |
| Skills.RogueMediumUnique | data/skills.ts:71-74 | no two share an id |
| Skills.RogueAdvancedShape | data/skills.ts:77-80 | four rogue advanced skills of that class and tier |
| Skills.RogueAdvancedUnique | data/skills.ts:77-80 | no two share an id |
| Skills.DatabaseIdsUnique | data/skills.ts:4-81 | skill ids are unique across the whole catalog |
| Skills.DatabaseWellFormed | data/skills.ts:4-81 | the catalog has 56 skills, each with an id prefixed by its class and tier and a non-negative mana cost |
| Skills.ClassSections | data/skills.ts:4-81 | the skills of one class are exactly its three sections, in catalog order |
| Skills.TierOfSections | data/skills.ts:4-81 | within one class block, the skills of a tier are exactly that tier's section |
| Skills.CatalogCounts | data/skills.ts:4-81 | per class and tier the catalog holds 10/5/5, 10/5/5 and 8/4/4 skills, so every (class, tier) pair is non-empty |
| Dice.Face | components/DiceRoll.tsx:19-26 | a face drawn from a random number in [0, 1) is between 1 and 20 |
| Dice.FaceInterval | components/DiceRoll.tsx:19-26 | the face is v exactly when the random number lies in the v-th twentieth of [0, 1) |
| Dice.FaceOnto | components/DiceRoll.tsx:19-26 | every face from 1 to 20 can be drawn |
| Dice.ResultSound | components/DiceRoll.tsx:31-33 | level-up sound exactly on a 20, hit sound exactly on a 1 |
| Dice.GetColor | components/DiceRoll.tsx:44-49 | white exactly while rolling; once stopped, yellow exactly on 20 and red exactly on 1 |
| Dice.Label | components/DiceRoll.tsx:72-73 | the critical label exactly on 20, the critical-failure label exactly on 1, and "Resultado" on every other face |
| Dice.OutcomesAgree | components/DiceRoll.tsx:31-73 | the label, the colour and the sound separate the faces in the same way |
| Dice.PromptBand | netlify/functions/gemini.ts:24-27 | the narrator's roll bands cover exactly the faces 1 to 20 |
| Dice.CodeCoarserThanPrompt | netlify/functions/gemini.ts:24-27 | faces in one prompt band get the same sound and label, but 2 and 10 share a sound while lying in different bands |
| Dice.DiceRoll.constructor | components/DiceRoll.tsx:10-12 | the dice mounts rolling, showing 1, at scale 0 |
| Dice.DiceRoll.PopIn | components/DiceRoll.tsx:16-16 | the pop-in sets the scale to 1 and changes nothing else |
| Dice.DiceRoll.Tick | components/DiceRoll.tsx:18-21 | a tick while rolling shows the face drawn from the random number |
| Dice.DiceRoll.Settle | components/DiceRoll.tsx:24-39 | the final face is the one drawn, rolling stops, the reported sound matches the face and the colour is no longer white |
| Tutorial.NextLabel | components/Tutorial.tsx:71-71 | the button reads "Começar Jogo" exactly on the last step and "Próximo" on every other |
| Tutorial.Header | components/Tutorial.tsx:58-58 | the header shows the one-based step number, step + 1, out of the step count of six |
| Tutorial.TutorialView.constructor | components/Tutorial.tsx:9-9 | the tutorial opens on the first step |
| Tutorial.TutorialView.Next | components/Tutorial.tsx:49-52 | before the last step "next" advances one step; on the last it completes without moving |
| Tutorial.TutorialView.Skip | components/Tutorial.tsx:67-67 | skipping completes the tutorial |
| Tutorial.SixPresses | components/Tutorial.tsx:11-52 | from a fresh tutorial, six presses of "next" give five advances and then completion |
| CharacterCard.GetStatusColor | components/CharacterCard.tsx:9-18 | each status effect has its own colour |
| CharacterCard.GetSkillColor | components/CharacterCard.tsx:20-27 | each tier has its own colour |
| CharacterCard.PalettesInjective | components/CharacterCard.tsx:9-27 | no two status effects, and no two tiers, share a colour |
| CharacterCard.GetSkillIcon | components/CharacterCard.tsx:29-51 | the generic sparkle icon is shown exactly when the class is none of the three |
| CharacterCard.FirstMatch | components/CharacterCard.tsx:31-50 | the icon of the first rule with a matching keyword, else the fallback |
| CharacterCard.WarriorChainIsTable | components/CharacterCard.tsx:31-36 | the warrior's if-chain is the first match over the warrior keyword table |
| CharacterCard.MageChainIsTable | components/CharacterCard.tsx:37-43 | the mage's if-chain is the first match over the mage keyword table |
| CharacterCard.RogueChainIsTable | components/CharacterCard.tsx:44-50 | the rogue's if-chain is the first match over the rogue keyword table |
| CharacterCard.IconIsFirstMatch | components/CharacterCard.tsx:29-51 | for a known class the icon is the first matching rule of its table over the lowered name |
| CharacterCard.IconIgnoresCase | components/CharacterCard.tsx:30-30 | the icon does not depend on the case of the skill name |
| CharacterCard.FireBeforeIce | components/CharacterCard.tsx:38-39 | a mage skill naming both fire and ice gets the fire icon, the earlier rule |
| CharacterCard.RowLookOf | components/CharacterCard.tsx:135-137 | a skill row is drawn dimmed exactly when the hero cannot pay its mana cost |
| CharacterCard.PlainMeansPaidInFull | components/CharacterCard.tsx:135-137 | for mana in range and a non-negative cost, a row is plain exactly when paying the cost loses nothing to the floor of the mana clamp of App.tsx:230; a dimmed row's cost would clamp the pool to 0 |
| CharacterCard.Toggled | components/CharacterCard.tsx:58-60 | toggling closes exactly the open skill and otherwise opens the clicked one |
| CharacterCard.ToggleTwice | components/CharacterCard.tsx:58-60 | toggling one skill twice restores the panel exactly when nothing or that skill was open; otherwise everything ends closed |
| CharacterCard.SkillPanel.constructor | components/CharacterCard.tsx:54-54 | the card mounts with no skill expanded |
| CharacterCard.SkillPanel.ToggleSkill | components/CharacterCard.tsx:58-60 | a click sets the expanded skill to its toggle: the clicked row flips between open and closed, and every other row is closed |
| CharacterCard.SkillPanel.IsExpanded | components/CharacterCard.tsx:134-134 | a row shows its details exactly when it is the expanded one, so at most one row is open |
| OracleReply.BraceMatch | netlify/functions/gemini.ts:117-117 | the greedy brace match exists exactly when some '{' precedes some '}', and spans from the first '{' to the last '}' |
| OracleReply.Extract | netlify/functions/gemini.ts:117-118 | without braces the text is kept; otherwise the result is a brace-delimited infix with no '{' before it and no '}' after it |
| OracleReply.ExtractIdempotent | services/geminiService.ts:106-107 | extracting twice is extracting once |
| OracleReply.ExtractUnwraps | services/geminiService.ts:106-107 | an object wrapped in brace-free text is extracted exactly |
| OracleReply.SafeParseJson | netlify/functions/gemini.ts:115-127 | the parse succeeds exactly when the extract parses, or the text mentions the story key and the repaired text parses; the extract wins; failures carry the invalid-JSON message |
| OracleReply.FencedReplyParses | services/geminiService.ts:104-116 | a fenced reply parses to what its object parses to |
| OracleReply.TruncatedReplyRepair | services/geminiService.ts:104-116 | a reply with no '}' is its own extract, so both parses see the whole text, prose before the object included: its own parse, else the parse with the closer appended, else the error |
| OracleReply.RepairUsesWholeText | services/geminiService.ts:111-113 | an example: for a reply cut off after an inner object, the extract stops at the inner '}' while the repaired candidate is the whole text with the closer |
| OracleReply.FirstInline | netlify/functions/gemini.ts:272-277 | the first part with inline data is found, and there is none exactly when no part has it |
| OracleClient.ValidatorFor | services/geminiService.ts:121-121 | the strict instruction exactly in the complete mode |
| OracleClient.PixelArt | services/geminiService.ts:161-179 | the picture is the first inline data when the call succeeds with some, else the grayscale placeholder |
| OracleClient.GeminiService.constructor | services/geminiService.ts:118-118 | there is no chat before a game starts |
| OracleClient.GeminiService.ValidateAction | services/geminiService.ts:120-133 | a failed call propagates its error; otherwise the verdict is the safe parse of the reply |
| OracleClient.GeminiService.OpeningResult | services/geminiService.ts:135-151 | a failed call propagates; otherwise the narration is the safe parse of the reply |
| OracleClient.GeminiService.ChoiceResult | services/geminiService.ts:153-159 | without a chat the no-session error; a failed call propagates; otherwise the safe parse |
| OracleClient.GeminiService.StartNewGame | services/geminiService.ts:135-151 | a fresh chat with the game's configuration replaces the old one and holds the opening exchange when answered; the result is the opening result |
| OracleClient.GeminiService.MakeChoice | services/geminiService.ts:153-159 | without a chat nothing changes and it fails; a failed call leaves the chat; an answer is appended as one exchange |
| OracleFunction.OrOne | netlify/functions/gemini.ts:210-210 | `x \|\| 1`: a truthy number is kept, otherwise 1; never 0 |
| OracleFunction.ClampAct | netlify/functions/gemini.ts:243-249 | the act is never above 3 and never below a current act of at most 3; a reported act between the current one and 3 is kept, a lower one is raised to the current act, and either at 3 or above gives 3 |
| OracleFunction.ClampReply | netlify/functions/gemini.ts:242-249 | only a reply with a status update and a truthy current act is edited, and only its act |
| OracleFunction.ActMonotoneOnServer | netlify/functions/gemini.ts:242-249 | with a current act of 1 to 3 the returned act is between it and 3; without one the reply passes through |
| OracleFunction.ForceFirstAct | netlify/functions/gemini.ts:201-203 | the opening reply's act is set to 1 and nothing else changes |
| OracleFunction.WindowAppend | netlify/functions/gemini.ts:230-237 | appending an exchange and dropping the oldest pair past 20 entries keeps the last exchanges, user first, at most 20 entries |
| OracleFunction.Respond | netlify/functions/gemini.ts:297-305 | a result is a 200 with its JSON; an error is a 500 with a non-empty message, the thrown one when it has text |
| OracleFunction.ValidatorFor | netlify/functions/gemini.ts:155-157 | the strict instruction exactly for the "complete" mode string |
| OracleFunction.ImageFor | netlify/functions/gemini.ts:254-287 | the first inline data when present, otherwise the random placeholder stamped with the clock |
| OracleFunction.Endpoint.constructor | netlify/functions/gemini.ts:130-130 | the session map starts empty |
| OracleFunction.Endpoint.Validate | netlify/functions/gemini.ts:153-170 | a failed call propagates; otherwise the safe parse of the reply text or "{}" |
| OracleFunction.Endpoint.StartGame | netlify/functions/gemini.ts:172-205 | the session is dropped on failure and otherwise set to the opening exchange; the parsed opening is forced to act 1 |
| OracleFunction.Endpoint.MakeChoice | netlify/functions/gemini.ts:207-252 | the request is the stored history plus the turn prompt; an answer is appended within the 20-entry window; the parsed reply has its act clamped |
| OracleFunction.Endpoint.Handle | netlify/functions/gemini.ts:132-306 | preflight is an empty 200; exactly an unknown action is a 400; an unreadable body is a 500 with its message; validate, startGame and makeChoice answer what those calls return, as 200 or 500; startGame and makeChoice leave the session map as those calls do, and no other request touches it |
| GameRules.GetSkillBudget | App.tsx:158-166 | one simple skill always; a medium one for quick and medium games; an advanced one only for quick games |
| GameRules.MaxEvents | App.tsx:196-199 | one learning event for quick, two for medium, three otherwise |
| GameRules.BudgetTradesAgainstEvents | App.tsx:158-199 | starting skills plus learning events always make four |
| GameRules.TierCountsSum | App.tsx:713-717 | the per-tier counts of a selection add up to its size |
| GameRules.ReadyMeansFullBudget | App.tsx:713-717 | the start button is enabled exactly when every tier's count equals its budget, so the selection is within budget and of the budget's size |
| GameRules.ToggleSelection | App.tsx:323-334 | a selected skill is removed by id; an unselected one is added only under its tier's limit |
| GameRules.ToggleKeepsBudget | App.tsx:323-334 | toggling a skill keeps the selection within the budget |
| GameRules.ToggleKeepsUnique | App.tsx:323-334 | toggling keeps selected ids unique |
| GameRules.AddThenRemove | App.tsx:323-334 | adding a skill and toggling it again restores the selection |
| GameRules.UnlearnedMeaning | App.tsx:171-173 | the unlearned pool is exactly the catalog skills of the hero's class with an unknown id |
| GameRules.DrawPool | App.tsx:177-187 | the tier pool is non-empty whenever something is unlearned |
| GameRules.DrawPoolWithin | App.tsx:177-187 | the pool is drawn from the unlearned skills |
| GameRules.DrawLadder | App.tsx:177-187 | each rung: simple unless empty or passed; medium when simple is passed and the medium test fails; advanced when the medium test passes, or when simple is passed and medium is empty; the whole unlearned list when advanced is empty |
| GameRules.DrawIsOneTierOrAll | App.tsx:177-187 | the pool is one tier's unlearned skills or all of them |
| GameRules.PickIndex | App.tsx:189-189 | the random index is within the pool |
| GameRules.LearnNewSkillMeaning | App.tsx:168-190 | nothing is learned in the simple mode or with nothing unlearned; otherwise a skill of the class that the hero does not know |
| GameRules.FullGrimoireLearnsNothing | App.tsx:168-190 | a hero who knows every skill of the class learns nothing |
| GameRules.DrawnMeaning | App.tsx:195-203 | a skill is drawn only behind the learning gate (counter under the cap, the act and a coin) and is then an unknown skill of the class |
| GameRules.ClampStat | App.tsx:229-230 | the stat is clamped into [0, max] and kept when already in range |
| GameRules.ApplyStatus | App.tsx:222-235 | hp and mp change by the deltas and are clamped; gold and xp add; items and the new skill are appended; nothing else changes |
| GameRules.EmptyUpdateChangesNothing | App.tsx:222-235 | an update with no deltas leaves a hero in range unchanged |
| GameRules.ApplyKeepsUnique | App.tsx:222-235 | adding an unknown skill keeps skill ids unique |
| GameRules.CommitTurn | App.tsx:205-214 | the story and choices come from the reply; the history is the last entries with the new story; the act changes only on a non-zero report; game over is what the reply says; the counter rises only on learning |
| GameRules.HistoryWindow | App.tsx:212-212 | the history keeps the latest stories, ending with the new one, at most the window size |
| GameRules.ActCanRegress | App.tsx:209-209 | a reported lower act is committed as is |
| GameRules.GameOverNotSticky | App.tsx:210-210 | a game over is lifted by a reply that does not report it |
| GameRules.LearnCounterCapped | App.tsx:195-214 | the learning counter never passes the number of learning events of the game length |
| GameRules.AcceptsInputIsTrimGuard | App.tsx:249-249 | input is accepted exactly when it is non-blank and neither a request nor a roll is under way |
| GameRules.RejectionFrom | App.tsx:272-275 | the rejection panel shows the validator's reason and motive when given and non-empty, otherwise fixed defaults |
| GameRules.WithRoll | App.tsx:297-297 | the action text is kept as a prefix and followed by the roll annotation |
| GameRules.RollReadBack | App.tsx:297-297 | the roll can be read back from the annotated text |
| GameRules.ShownChoices | App.tsx:892-892 | the reply's choices when there are some, else the single "explore onward" choice |
| GameRules.BaseMp | App.tsx:360-360 | a mage starts with 30 mana, a rogue with 15, a warrior with 10 |
| GameRules.NewCharacter | App.tsx:339-365 | a fresh hero of the class with the given skills, full hp of 30 and full mana, otherwise the initial character |
| GameRules.BackgroundTrack | App.tsx:95-122 | the menu track off the play screen or after game over, otherwise the track of the current act, act 1 by default |
| Session.ActMeaning | App.tsx:248-290 | dropped input changes nothing; accepted input becomes the last action and clears the rejection; then the dice, the rejection, or the retry flag (with the button hidden once the request is over) |
| Session.ActKeepsInv | App.tsx:248-290 | handling an action keeps the App invariant |
| Session.ProcessedMeaning | App.tsx:192-246 | a reply commits the turn with the new picture, updates the hero only with a status update, announces only a drawn skill, ends the request and touches nothing else |
| Session.ProcessedKeepsInv | App.tsx:192-246 | processing a reply keeps the App invariant |
| Session.AfterRollMeaning | App.tsx:292-309 | the dice closes; nothing pending changes nothing else; a failed turn keeps the action and sets the retry flag, which draws no button; a successful one clears the action and the text box |
| Session.RollStartKeepsInv | App.tsx:293-296 | closing the dice and starting the request keeps the invariant |
| Session.AfterRollKeepsInv | App.tsx:292-309 | the roll handler keeps the App invariant |
| Session.StartedMeaning | App.tsx:336-381 | a failed opening returns to the title with the fresh hero and the retry flag cleared only when the start raised the request; a successful one is on the play screen with the tutorial and the opening committed |
| Session.StartedKeepsInv | App.tsx:336-381 | starting a game with distinct skills keeps the App invariant |
| Session.ReplayWhileLoadingIsDropped | App.tsx:249-249 | replaying the last action while a request is under way changes nothing |
| Session.ReplayAfterClearingGoesThrough | App.tsx:383-397 | with the request flag cleared first, replaying a non-blank last action is handled again |
| Session.LivePathDoesNotClamp | App.tsx:209-209 | the client commits the reported act, which the server's clamp would have kept at least at the current act |
| Session.ActFallsBackOnLivePath | App.tsx:209-209 | in act 2 a reply reporting act 1 sends the client back to act 1, where the server would have kept 2 |
| Session.SkillEntries | App.tsx:373-373 | the opening message lists each chosen skill's name and cost, in order |
| Session.App.constructor | App.tsx:57-89 | the component mounts on the title screen with the initial hero, game state and configuration |
| Session.App.Navigate | App.tsx:474-796 | a menu button moves along one of the menu's routes and changes nothing else |
| Session.App.Configure | App.tsx:593-652 | the configuration buttons change only the configuration |
| Session.App.TypeAction | App.tsx:902-902 | typing changes only the text box |
| Session.App.CloseTutorial | App.tsx:821-821 | closing the tutorial changes only its flag |
| Session.App.DismissRejection | App.tsx:835-835 | closing the rejection panel clears only the rejection |
| Session.App.LoadingTimeout | App.tsx:136-138 | ten seconds into a request the retry button appears, and nothing else changes |
| Session.App.HandleAction | App.tsx:248-290 | the new state is the handled action's, and the invariant holds |
| Session.App.ProcessResponse | App.tsx:192-246 | the new state is the processed reply's, and the invariant holds |
| Session.App.OnDiceResult | App.tsx:292-309 | the new state is the roll's outcome; the choice is sent with the roll annotation and the pending context, and only when an action is pending |
| Session.App.StartGameSimple | App.tsx:336-351 | a narrative game starts for the class with no skills and the warrior's mana; the opening asks for no skills |
| Session.App.StartGameWithSkills | App.tsx:353-381 | without a chosen class nothing happens; otherwise a tactical game starts with the selected skills and the class's mana |
| Session.App.SelectClassAndProceed | App.tsx:311-321 | the narrative mode starts at once; the tactical mode goes to the skills screen with an empty selection |
| Session.App.ClickSkill | App.tsx:739-745 | the selection becomes its toggle, and stays within budget with unique ids |
| Session.App.HandleRetry | App.tsx:383-397 | as written: with a last action the retry changes nothing; with none, an empty history and a chosen class, it restarts the game |
| Session.App.HandleRetryCorrected | App.tsx:383-397 | with a last action, the stalled request is cleared and the action is handled again |

## Left out

- The narrator, validator and image calls, the network, and the Netlify and
  Gemini SDKs are not modelled. Their outcomes are method parameters (`Result` values).
- `JSON.parse` is a parameter `string -> Option<J>`. The prompt texts and
  system instructions are named constants, not their wording.
- The random draws (`Math.random`) and the clock (`Date.now`) are parameters.
  Placeholder image URLs are the opaque values of `ImageRef`.
- The App does not hold the service object. Each handler takes what the
  service call resolved to and returns the message it would send. The
  validator, `makeChoice` and the image request are not awaited
  concurrently. The picture is a single write at the end of
  `processResponse`, and later image races are not modelled.
- The context and prompt strings are structured values, not the
  interpolated text.
- Timers and animation are left out, except the loading timeout and the
  dice ticks, which are methods. That covers the floating texts, the
  particles, the notification timeout, the typing effect and scrolling.
- services/audioService.ts is not part of this model. Sound and music
  appear only as the chosen track or sound name.
- The JSX layout, CSS classes, the hp/mp bar percentages and
  `window.location.reload` are not modelled.
- Text.ToLower: lowers only the ASCII and Latin-1 capitals, one character for
  one, while `toLowerCase` lowers every Unicode capital and can lengthen a
  string (U+0130). The skill names of the catalog need nothing more.
- Reply numbers (hp, mp, gold and xp changes, the act, the turn) are
  integers. A fractional JSON number from the narrator is not modelled.
- The dice component is assumed to report one result per roll. Its effect
  restarts whenever `onComplete` changes (DiceRoll.tsx:41-42), and the App
  re-creates that callback on each render, so a re-render during a roll can
  restart it and report twice. That second `makeChoice` is not modelled.
- A reply whose text is missing: the client's `safeParseJson` would then
  throw a type error rather than the invalid-JSON error
  (services/geminiService.ts:106, 111). A reply here is always a string.
- Session.App.Navigate: restricted to the menu's declared routes rather than
  every button's exact guard, because the guards are rendering conditions.
- Session.StartedMeaning: on success it states the screen, the flags and the
  committed history, not the whole character, which
  `Session.ProcessedMeaning` covers.

## Findings

| source | as written | input that shows it | evidently intended | confidence | as-written member | corrected member |
|---|---|---|---|---|---|---|
| App.tsx:383-397 | The retry button shows only while `loading` is true (App.tsx:855-872). `handleRetry` replays the last action through `handleAction`, which returns at once while `loading` (App.tsx:249). | A free-text action whose `makeChoice` call never settles. Ten seconds later the retry button appears; clicking it leaves the state unchanged. | Clear `loading` before replaying, so the last action is handled again. | not executed | Session.App.HandleRetry | Session.App.HandleRetryCorrected |
