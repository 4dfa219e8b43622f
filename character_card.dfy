/** components/CharacterCard.tsx: the character sheet's small pure mappings
    (status and tier palettes, the skill icon chosen from keywords in the
    skill's name, the mana test) and its one piece of state, the id of the
    skill whose details are expanded. */
module CharacterCard {
  import opened Wrappers
  import opened Types
  import opened Text
  import GameRules

  // ------------------------------------------------------------ palettes

  /** The colour families of the status badges (CharacterCard.tsx:9-18). */
  datatype StatusHue = Green | PaleYellow | RedHue | BlueHue | Pink

  function GetStatusColor(t: StatusType): (h: StatusHue)
    ensures h == Green <==> t == Poison
    ensures h == PaleYellow <==> t == Stun
    ensures h == RedHue <==> t == BuffStr
    ensures h == BlueHue <==> t == BuffDef
    ensures h == Pink <==> t == Regen
  {
    match t
    case Poison => Green
    case Stun => PaleYellow
    case BuffStr => RedHue
    case BuffDef => BlueHue
    case Regen => Pink
  }

  /** The border families of the skill rows (CharacterCard.tsx:20-27). */
  datatype TierHue = Zinc | Blue | Amber

  function GetSkillColor(t: SkillTier): (h: TierHue)
    ensures h == Zinc <==> t == SimpleTier
    ensures h == Blue <==> t == MediumTier
    ensures h == Amber <==> t == AdvancedTier
  {
    match t
    case SimpleTier => Zinc
    case MediumTier => Blue
    case AdvancedTier => Amber
  }

  /** Each palette can be read back: different inputs, different colours. */
  lemma PalettesInjective(a: StatusType, b: StatusType, x: SkillTier, y: SkillTier)
    ensures GetStatusColor(a) == GetStatusColor(b) ==> a == b
    ensures GetSkillColor(x) == GetSkillColor(y) ==> x == y
  {
  }

  // ---------------------------------------------------------------- icons

  /** The emoji `getSkillIcon` returns (CharacterCard.tsx:29-51). The
      Guerreiro and Ladino defaults are the same dagger. */
  datatype Icon =
    | Speaking | ShieldIcon | CrossedSwords | Dagger
    | Fire | Snowflake | Lightning | GreenHeart | CrystalBall
    | MoneyBag | TestTube | BowAndArrow
    | Sparkles

  /** `getSkillIcon(name, charClass)` as the source writes it: a chain of
      keyword tests on the lower-cased name, per class. */
  function GetSkillIcon(name: string, charClass: ClassName): (icon: Icon)
    ensures Resolve(charClass).None? <==> icon == Sparkles
  {
    var lowerName := ToLower(name);
    match Resolve(charClass)
    case Some(Guerreiro) =>
      if Contains(lowerName, "grito") || Contains(lowerName, "rugido") then Speaking
      else if Contains(lowerName, "escudo") || Contains(lowerName, "bloqueio") then ShieldIcon
      else if Contains(lowerName, "corte") || Contains(lowerName, "lâmina") then CrossedSwords
      else Dagger
    case Some(Mago) =>
      if Contains(lowerName, "fogo") || Contains(lowerName, "chama") then Fire
      else if Contains(lowerName, "gelo") || Contains(lowerName, "frio") then Snowflake
      else if Contains(lowerName, "raio") then Lightning
      else if Contains(lowerName, "cura") then GreenHeart
      else CrystalBall
    case Some(Ladino) =>
      if Contains(lowerName, "roubo") || Contains(lowerName, "punga") then MoneyBag
      else if Contains(lowerName, "veneno") then TestTube
      else if Contains(lowerName, "tiro") then BowAndArrow
      else Dagger
    case None => Sparkles
  }

  /** A keyword rule: any of the keywords selects the icon. */
  datatype Rule = Rule(keywords: seq<string>, icon: Icon)

  /** The rules of each class, in the order they are tried, and its
      fallback icon. */
  function Rules(c: CharacterClass): seq<Rule> {
    match c
    case Guerreiro => [Rule(["grito", "rugido"], Speaking), Rule(["escudo", "bloqueio"], ShieldIcon),
                       Rule(["corte", "lâmina"], CrossedSwords)]
    case Mago => [Rule(["fogo", "chama"], Fire), Rule(["gelo", "frio"], Snowflake),
                  Rule(["raio"], Lightning), Rule(["cura"], GreenHeart)]
    case Ladino => [Rule(["roubo", "punga"], MoneyBag), Rule(["veneno"], TestTube), Rule(["tiro"], BowAndArrow)]
  }

  function Fallback(c: CharacterClass): Icon {
    match c
    case Guerreiro => Dagger
    case Mago => CrystalBall
    case Ladino => Dagger
  }

  predicate AnyIn(text: string, keywords: seq<string>) {
    exists k :: 0 <= k < |keywords| && Contains(text, keywords[k])
  }

  /** The icon of the first rule with a keyword in `text`, else the
      fallback: a reference reading of "the first match wins". */
  function FirstMatch(text: string, rules: seq<Rule>, fallback: Icon): (icon: Icon)
    ensures icon == fallback || exists k :: 0 <= k < |rules| && rules[k].icon == icon && AnyIn(text, rules[k].keywords)
    ensures (forall k :: 0 <= k < |rules| ==> !AnyIn(text, rules[k].keywords)) ==> icon == fallback
    ensures forall k ::
      (0 <= k < |rules| && AnyIn(text, rules[k].keywords) && forall j :: 0 <= j < k ==> !AnyIn(text, rules[j].keywords))
      ==> icon == rules[k].icon
  {
    if |rules| == 0 then fallback
    else if AnyIn(text, rules[0].keywords) then rules[0].icon
    else FirstMatch(text, rules[1..], fallback)
  }

  lemma AnyInPair(text: string, a: string, b: string)
    ensures AnyIn(text, [a, b]) <==> Contains(text, a) || Contains(text, b)
  {
    var ks := [a, b];
    assert ks[0] == a && ks[1] == b;
  }

  lemma AnyInOne(text: string, a: string)
    ensures AnyIn(text, [a]) <==> Contains(text, a)
  {
    if Contains(text, a) { assert [a][0] == a; }
  }

  /** One step of the table reading: try the head rule, then the rest. */
  lemma FirstMatchCons(text: string, r: Rule, rest: seq<Rule>, fallback: Icon)
    ensures FirstMatch(text, [r] + rest, fallback) ==
      if AnyIn(text, r.keywords) then r.icon else FirstMatch(text, rest, fallback)
  {
    assert ([r] + rest)[1..] == rest;
  }

  lemma WarriorChainIsTable(t: string)
    ensures FirstMatch(t, Rules(Guerreiro), Fallback(Guerreiro)) ==
      if Contains(t, "grito") || Contains(t, "rugido") then Speaking
      else if Contains(t, "escudo") || Contains(t, "bloqueio") then ShieldIcon
      else if Contains(t, "corte") || Contains(t, "lâmina") then CrossedSwords
      else Dagger
  {
    var r0, r1, r2 := Rule(["grito", "rugido"], Speaking), Rule(["escudo", "bloqueio"], ShieldIcon),
                      Rule(["corte", "lâmina"], CrossedSwords);
    assert Rules(Guerreiro) == [r0] + ([r1] + ([r2] + []));
    FirstMatchCons(t, r0, [r1] + ([r2] + []), Dagger);
    FirstMatchCons(t, r1, [r2] + [], Dagger);
    FirstMatchCons(t, r2, [], Dagger);
    AnyInPair(t, "grito", "rugido");
    AnyInPair(t, "escudo", "bloqueio");
    AnyInPair(t, "corte", "lâmina");
  }

  lemma MageChainIsTable(t: string)
    ensures FirstMatch(t, Rules(Mago), Fallback(Mago)) ==
      if Contains(t, "fogo") || Contains(t, "chama") then Fire
      else if Contains(t, "gelo") || Contains(t, "frio") then Snowflake
      else if Contains(t, "raio") then Lightning
      else if Contains(t, "cura") then GreenHeart
      else CrystalBall
  {
    var r0, r1, r2, r3 := Rule(["fogo", "chama"], Fire), Rule(["gelo", "frio"], Snowflake),
                          Rule(["raio"], Lightning), Rule(["cura"], GreenHeart);
    assert Rules(Mago) == [r0] + ([r1] + ([r2] + ([r3] + [])));
    FirstMatchCons(t, r0, [r1] + ([r2] + ([r3] + [])), CrystalBall);
    FirstMatchCons(t, r1, [r2] + ([r3] + []), CrystalBall);
    FirstMatchCons(t, r2, [r3] + [], CrystalBall);
    FirstMatchCons(t, r3, [], CrystalBall);
    AnyInPair(t, "fogo", "chama");
    AnyInPair(t, "gelo", "frio");
    AnyInOne(t, "raio");
    AnyInOne(t, "cura");
  }

  lemma RogueChainIsTable(t: string)
    ensures FirstMatch(t, Rules(Ladino), Fallback(Ladino)) ==
      if Contains(t, "roubo") || Contains(t, "punga") then MoneyBag
      else if Contains(t, "veneno") then TestTube
      else if Contains(t, "tiro") then BowAndArrow
      else Dagger
  {
    var r0, r1, r2 := Rule(["roubo", "punga"], MoneyBag), Rule(["veneno"], TestTube), Rule(["tiro"], BowAndArrow);
    assert Rules(Ladino) == [r0] + ([r1] + ([r2] + []));
    FirstMatchCons(t, r0, [r1] + ([r2] + []), Dagger);
    FirstMatchCons(t, r1, [r2] + [], Dagger);
    FirstMatchCons(t, r2, [], Dagger);
    AnyInPair(t, "roubo", "punga");
    AnyInOne(t, "veneno");
    AnyInOne(t, "tiro");
  }

  /** The if-chain of the source is the first-match reading of the class's
      rule table on the lower-cased name. */
  lemma IconIsFirstMatch(name: string, c: ClassName)
    ensures Resolve(c).Some? ==>
      GetSkillIcon(name, c) == FirstMatch(ToLower(name), Rules(Resolve(c).value), Fallback(Resolve(c).value))
  {
    match Resolve(c)
    case Some(Guerreiro) => WarriorChainIsTable(ToLower(name));
    case Some(Mago) => MageChainIsTable(ToLower(name));
    case Some(Ladino) => RogueChainIsTable(ToLower(name));
    case None =>
  }

  /** Matching ignores case: the name and its lower-cased form get the same
      icon. */
  lemma IconIgnoresCase(name: string, c: ClassName)
    ensures GetSkillIcon(ToLower(name), c) == GetSkillIcon(name, c)
  {
    ToLowerIdempotent(name);
  }

  /** The first match wins: a name with a fire keyword and an ice keyword
      gets the fire icon, whichever comes first in the name. */
  lemma FireBeforeIce()
    ensures GetSkillIcon("Gelo e Chama", Known(Mago)) == Fire
  {
    var t := ToLower("Gelo e Chama");
    assert t == "gelo e chama";
    assert OccursAt(t, "chama", 7);
  }

  // ---------------------------------------------------------------- mana

  /** `character.mp >= skill.manaCost` (CharacterCard.tsx:135): the skill
      can be paid for without the pool going negative; rows where it fails
      are drawn dimmed (line 137). */
  function HasMana(mp: int, manaCost: int): (r: bool)
    ensures r <==> mp - manaCost >= 0
  {
    mp >= manaCost
  }

  /** How a skill row is drawn: dimmed and grey when it cannot be paid for
      (CharacterCard.tsx:137). */
  datatype RowLook = Plain | Dimmed

  function RowLookOf(mp: int, manaCost: int): (l: RowLook)
    ensures l == Dimmed <==> !HasMana(mp, manaCost)
  {
    if !HasMana(mp, manaCost) then Dimmed else Plain
  }

  /** A row is drawn plain exactly when paying its cost from the pool would
      lose nothing to the floor of the mana clamp (App.tsx:230): for a
      pool in range and a non-negative cost, affordable means the clamped
      pool after paying is the pool minus the cost. */
  lemma PlainMeansPaidInFull(mp: int, maxMp: int, manaCost: int)
    requires 0 <= mp <= maxMp && manaCost >= 0
    ensures RowLookOf(mp, manaCost) == Plain <==> GameRules.ClampStat(mp - manaCost, maxMp) == mp - manaCost
    ensures RowLookOf(mp, manaCost) == Dimmed ==> GameRules.ClampStat(mp - manaCost, maxMp) == 0
  {
  }

  // -------------------------------------------------------- expanded row

  /** `expandedSkill === id ? null : id` (CharacterCard.tsx:58-60). */
  function Toggled(expanded: Option<string>, id: string): (r: Option<string>)
    ensures r == None <==> expanded == Some(id)
    ensures r != None ==> r == Some(id)
  {
    if expanded == Some(id) then None else Some(id)
  }

  /** Toggling the same row twice restores the previous state exactly when
      nothing or that same row was expanded; from another expanded row it
      ends collapsed. */
  lemma ToggleTwice(expanded: Option<string>, id: string)
    ensures Toggled(Toggled(expanded, id), id) == expanded <==> expanded == None || expanded == Some(id)
    ensures expanded != None && expanded != Some(id) ==> Toggled(Toggled(expanded, id), id) == None
  {
  }

  /** The component state that a click on a skill row updates. */
  class SkillPanel {
    var expandedSkill: Option<string>

    /** CharacterCard.tsx:54. */
    constructor ()
      ensures expandedSkill == None
    {
      expandedSkill := None;
    }

    /** CharacterCard.tsx:58-60, 140. */
    method ToggleSkill(id: string)
      modifies this
      ensures expandedSkill == Toggled(old(expandedSkill), id)
      ensures IsExpanded(id) <==> !old(IsExpanded(id))
      ensures forall other :: other != id ==> !IsExpanded(other)
    {
      expandedSkill := if expandedSkill == Some(id) then None else Some(id);
    }

    /** The row of `id` shows its details (CharacterCard.tsx:134). */
    function IsExpanded(id: string): (r: bool)
      reads this
      ensures r <==> expandedSkill == Some(id)
      ensures r ==> forall other :: other != id ==> !(expandedSkill == Some(other))
    {
      expandedSkill == Some(id)
    }
  }
}
