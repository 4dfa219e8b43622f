/** The entities of types.ts. String-union types become enumerations; optional
    properties (`x?: T`) become `Option<T>`. */
module Types {
  import opened Wrappers

  datatype ItemType = Weapon | Armor | Accessory | Consumable
  datatype MusicMood = MenuMood | Exploration | Combat | Boss | Town | Dungeon | Mystery | Victory | Defeat
  datatype StatusType = Poison | Stun | BuffStr | BuffDef | Regen
  datatype GameLength = Quick | Medium | Long | Endless
  datatype GameTheme = DarkFantasy | Steampunk | CosmicHorror | ClassicHigh
  /** 'simple' (narrative) and 'complete' (tactical). */
  datatype GameMode = SimpleMode | CompleteMode
  datatype SkillTier = SimpleTier | MediumTier | AdvancedTier
  datatype CharacterClass = Guerreiro | Mago | Ladino
  datatype SkillType = Physical | Magical | Utility | Heal
  datatype SkillTarget = Single | Aoe | SelfTarget | Ally

  /** `Character.class` is declared `CharacterClass | string`: any other
      string is representable too. */
  datatype ClassName = Known(cls: CharacterClass) | Other(name: string)

  /** The class name as the string the source compares with `===`. */
  function ClassNameText(c: CharacterClass): (s: string)
    ensures s == "Guerreiro" || s == "Mago" || s == "Ladino"
  {
    match c
    case Guerreiro => "Guerreiro"
    case Mago => "Mago"
    case Ladino => "Ladino"
  }

  /** Which known class, if any, a class name equals under `===`: a known
      class, or any string spelling one of the three names. */
  function Resolve(n: ClassName): (r: Option<CharacterClass>)
    ensures n.Known? ==> r == Some(n.cls)
    ensures n.Other? ==> (r.Some? <==> exists c :: n.name == ClassNameText(c))
    ensures n.Other? && r.Some? ==> n.name == ClassNameText(r.value)
  {
    match n
    case Known(c) => Some(c)
    case Other(s) =>
      if s == "Guerreiro" then assert s == ClassNameText(Guerreiro); Some(Guerreiro)
      else if s == "Mago" then assert s == ClassNameText(Mago); Some(Mago)
      else if s == "Ladino" then assert s == ClassNameText(Ladino); Some(Ladino)
      else None
  }

  /** A catalog skill. `owner` is the TypeScript `class` property and `kind`
      its `type` property (both are Dafny keywords). */
  datatype Skill = Skill(
    id: string,
    name: string,
    tier: SkillTier,
    description: string,
    owner: CharacterClass,
    manaCost: int,
    damage: Option<string>,
    kind: SkillType,
    target: SkillTarget,
    effect: Option<string>)

  datatype StatusEffect = StatusEffect(name: string, kind: StatusType, duration: int, value: int)

  datatype ItemEffect = ItemEffect(hp: Option<int>, str: Option<int>, def: Option<int>)

  datatype Item = Item(
    id: string,
    name: string,
    kind: ItemType,
    description: string,
    effect: Option<ItemEffect>,
    value: int)

  datatype Character = Character(
    name: string,
    charClass: ClassName,
    hp: int,
    maxHp: int,
    mp: int,
    maxMp: int,
    level: int,
    gold: int,
    xp: int,
    strength: int,
    defense: int,
    inventory: seq<Item>,
    status: seq<StatusEffect>,
    skills: seq<Skill>)

  datatype ChoiceKind = Normal | AoeChoice | Custom

  datatype GameChoice = GameChoice(text: string, action: string, kind: Option<ChoiceKind>)

  datatype GameConfig = GameConfig(length: GameLength, theme: GameTheme, mode: GameMode)

  /** `AIResponse.statusUpdate`: every effect is optional except the act. */
  datatype StatusUpdate = StatusUpdate(
    hpChange: Option<int>,
    mpChange: Option<int>,
    goldChange: Option<int>,
    xpChange: Option<int>,
    gameOver: Option<bool>,
    currentAct: int,
    newStatus: Option<seq<StatusEffect>>,
    learnSkill: Option<bool>)

  /** A narration reply. `choices` and `statusUpdate` are required by the
      declared type, but the reply comes from unchecked JSON and the client
      guards both (`res.choices || []`, `res.statusUpdate?.`), so absence is
      representable. */
  datatype AIResponse = AIResponse(
    story: string,
    choices: Option<seq<GameChoice>>,
    imagePrompt: string,
    musicMood: Option<MusicMood>,
    statusUpdate: Option<StatusUpdate>,
    itemsFound: Option<seq<Item>>)

  datatype ValidationResponse = ValidationResponse(isPlausible: bool, reason: Option<string>, motive: Option<string>)

  /** `GameState.rejectionMessage` when it is not null. */
  datatype Rejection = Rejection(text: string, motive: string)

  /** A scene image reference: the data URL of an inline PNG, or one of the
      two placeholder URLs (the random one is keyed by `Date.now()`). */
  datatype ImageRef = InlinePng(base64: string) | RandomPlaceholder(stamp: int) | GrayscalePlaceholder

  datatype GameState = GameState(
    storyText: string,
    choices: seq<GameChoice>,
    currentImage: Option<ImageRef>,
    isGameOver: bool,
    history: seq<string>,
    currentAct: int,
    rejectionMessage: Option<Rejection>,
    skillsLearnedCount: int)

  /** The facts `handleAction` sends along with an action (App.tsx:255-263),
      before they are rendered into one line of text. `skills` holds each
      known skill's name and mana cost, `inventory` each item's name. */
  datatype Context = Context(
    charClass: ClassName,
    hp: int,
    mp: int,
    maxMp: int,
    act: int,
    theme: GameTheme,
    skills: seq<(string, int)>,
    inventory: seq<string>,
    mode: GameMode)

  /** The starting-skills part of the opening message: the fixed text of
      the narrative start, or the chosen skills' names and costs. */
  datatype SkillsList = NoSkillsSimplified | Listed(entries: seq<(string, int)>)

  const AllModes: seq<GameMode> := [SimpleMode, CompleteMode]
  const AllTiers: seq<SkillTier> := [SimpleTier, MediumTier, AdvancedTier]
  const AllClasses: seq<CharacterClass> := [Guerreiro, Mago, Ladino]
  const AllLengths: seq<GameLength> := [Quick, Medium, Long, Endless]

  /** The enumerations have exactly two modes, three tiers, three classes
      and four lengths. */
  lemma EnumerationSizes()
    ensures forall m: GameMode :: m in AllModes
    ensures forall t: SkillTier :: t in AllTiers
    ensures forall c: CharacterClass :: c in AllClasses
    ensures forall l: GameLength :: l in AllLengths
    ensures |AllModes| == 2 && AllModes[0] != AllModes[1]
    ensures |AllTiers| == 3 && forall i, j :: 0 <= i < j < 3 ==> AllTiers[i] != AllTiers[j]
    ensures |AllClasses| == 3 && forall i, j :: 0 <= i < j < 3 ==> AllClasses[i] != AllClasses[j]
    ensures |AllLengths| == 4 && forall i, j :: 0 <= i < j < 4 ==> AllLengths[i] != AllLengths[j]
  {
    forall m: GameMode ensures m in AllModes {
      match m
      case SimpleMode =>
      case CompleteMode =>
    }
    forall t: SkillTier ensures t in AllTiers {
      match t
      case SimpleTier =>
      case MediumTier =>
      case AdvancedTier =>
    }
    forall c: CharacterClass ensures c in AllClasses {
      match c
      case Guerreiro =>
      case Mago =>
      case Ladino =>
    }
    forall l: GameLength ensures l in AllLengths {
      match l
      case Quick =>
      case Medium =>
      case Long =>
      case Endless =>
    }
  }
}
