/** data/skills.ts: the constant skill catalog, kept as the source lays it
    out: one section per class and tier, concatenated in source order. */
module Skills {
  import opened Wrappers
  import opened Types
  import opened Seqs

  /** data/skills.ts:7-16 */
  const WarriorSimple: seq<Skill> := [
    Skill("w_s_1", "Golpe Pesado", SimpleTier, "Um ataque básico com força total.", Guerreiro, 3, Some("1d8+Str"), Physical, Single, None),
    Skill("w_s_2", "Bloqueio", SimpleTier, "Reduz o dano do próximo ataque.", Guerreiro, 2, None, Utility, SelfTarget, Some("Defesa +5")),
    Skill("w_s_3", "Empurrão", SimpleTier, "Afasta o inimigo.", Guerreiro, 3, Some("1d4"), Physical, Single, Some("Knockback")),
    Skill("w_s_4", "Grito de Guerra", SimpleTier, "Aumenta levemente o ataque.", Guerreiro, 5, None, Utility, SelfTarget, Some("Força +2")),
    Skill("w_s_5", "Investida", SimpleTier, "Corre em direção ao alvo.", Guerreiro, 4, Some("1d6"), Physical, Single, None),
    Skill("w_s_6", "Corte Lateral", SimpleTier, "Atinge inimigos adjacentes.", Guerreiro, 5, Some("1d6 (x2)"), Physical, Aoe, None),
    Skill("w_s_7", "Postura Defensiva", SimpleTier, "Troca ataque por defesa.", Guerreiro, 0, None, Utility, SelfTarget, None),
    Skill("w_s_8", "Cabeçada", SimpleTier, "Pode atordoar, mas causa dano a si.", Guerreiro, 4, Some("1d6"), Physical, Single, Some("Stun")),
    Skill("w_s_9", "Chute Espartano", SimpleTier, "Empurra o inimigo para longe.", Guerreiro, 4, Some("1d8"), Physical, Single, None),
    Skill("w_s_10", "Provocação", SimpleTier, "Atrai a atenção dos inimigos.", Guerreiro, 2, None, Utility, Aoe, None)
  ]

  /** data/skills.ts:19-23 */
  const WarriorMedium: seq<Skill> := [
    Skill("w_m_1", "Torvelinho", MediumTier, "Gira atingindo todos ao redor.", Guerreiro, 10, Some("2d6 Aoe"), Physical, Aoe, None),
    Skill("w_m_2", "Golpe Sísmico", MediumTier, "Racha o chão e atordoa.", Guerreiro, 12, Some("1d10"), Physical, Aoe, Some("Stun")),
    Skill("w_m_3", "Berserker", MediumTier, "Dobra dano, zera defesa.", Guerreiro, 10, None, Utility, SelfTarget, Some("Dano x2")),
    Skill("w_m_4", "Pele de Ferro", MediumTier, "Reduz muito o dano físico.", Guerreiro, 8, None, Utility, SelfTarget, Some("Defesa +10")),
    Skill("w_m_5", "Execução", MediumTier, "Mata inimigos com pouco HP.", Guerreiro, 12, Some("4d8"), Physical, Single, None)
  ]

  /** data/skills.ts:26-30 */
  const WarriorAdvanced: seq<Skill> := [
    Skill("w_a_1", "Avatar da Guerra", AdvancedTier, "Torna-se imbatível por 3 turnos.", Guerreiro, 20, None, Utility, SelfTarget, Some("Invulnerável")),
    Skill("w_a_2", "Lâmina do Julgamento", AdvancedTier, "Dano massivo sagrado.", Guerreiro, 25, Some("10d10"), Magical, Single, None),
    Skill("w_a_3", "Terremoto", AdvancedTier, "Dano em área global.", Guerreiro, 25, Some("6d8"), Physical, Aoe, None),
    Skill("w_a_4", "Imortalidade", AdvancedTier, "Não morre por 5 turnos.", Guerreiro, 30, None, Utility, SelfTarget, None),
    Skill("w_a_5", "Golpe Dimensional", AdvancedTier, "Corta o tecido da realidade.", Guerreiro, 22, Some("8d8"), Magical, Single, None)
  ]

  /** data/skills.ts:34-43 */
  const MageSimple: seq<Skill> := [
    Skill("m_s_1", "Míssil Mágico", SimpleTier, "Dano arcano básico e teleguiado.", Mago, 2, Some("1d4+1"), Magical, Single, None),
    Skill("m_s_2", "Toque Chocante", SimpleTier, "Dano elétrico ao tocar.", Mago, 3, Some("1d8"), Magical, Single, None),
    Skill("m_s_3", "Luz", SimpleTier, "Ilumina áreas escuras.", Mago, 1, None, Utility, Aoe, None),
    Skill("m_s_4", "Escudo Arcano", SimpleTier, "Bloqueia um pouco de dano.", Mago, 5, None, Utility, SelfTarget, Some("+5 Def")),
    Skill("m_s_5", "Rajada de Vento", SimpleTier, "Empurra inimigos.", Mago, 4, Some("1d6"), Magical, Aoe, None),
    Skill("m_s_6", "Chama Pequena", SimpleTier, "Acende tochas ou queima leve.", Mago, 1, Some("1d4"), Magical, Single, None),
    Skill("m_s_7", "Raio de Gelo", SimpleTier, "Lentidão no alvo.", Mago, 3, Some("1d6"), Magical, Single, Some("Slow")),
    Skill("m_s_15", "Dardo de Fogo", SimpleTier, "Ataque de fogo à distância.", Mago, 4, Some("1d10"), Magical, Single, None),
    Skill("m_s_17", "Graxa", SimpleTier, "Cria chão escorregadio.", Mago, 5, None, Utility, Aoe, Some("Prone")),
    Skill("m_s_20", "Faísca", SimpleTier, "Dano elétrico leve.", Mago, 2, Some("1d6"), Magical, Single, None)
  ]

  /** data/skills.ts:46-50 */
  const MageMedium: seq<Skill> := [
    Skill("m_m_1", "Bola de Fogo", MediumTier, "Clássica explosão em área.", Mago, 15, Some("8d6"), Magical, Aoe, None),
    Skill("m_m_2", "Relâmpago", MediumTier, "Dano em linha reta.", Mago, 12, Some("6d6"), Magical, Aoe, None),
    Skill("m_m_3", "Voo", MediumTier, "Permite voar por um tempo.", Mago, 10, None, Utility, SelfTarget, None),
    Skill("m_m_4", "Invisibilidade", MediumTier, "Fica invisível até atacar.", Mago, 10, None, Utility, SelfTarget, None),
    Skill("m_m_27", "Curar Ferimentos", MediumTier, "Magia de cura média.", Mago, 10, Some("-4d4"), Heal, Single, None)
  ]

  /** data/skills.ts:53-57 */
  const MageAdvanced: seq<Skill> := [
    Skill("m_a_1", "Chuva de Meteoros", AdvancedTier, "Destruição total em área.", Mago, 40, Some("20d6"), Magical, Aoe, None),
    Skill("m_a_2", "Parar o Tempo", AdvancedTier, "Ganha 3 turnos extras.", Mago, 50, None, Utility, SelfTarget, None),
    Skill("m_a_3", "Desejo", AdvancedTier, "Altera a realidade (limitado).", Mago, 60, None, Utility, Aoe, None),
    Skill("m_a_4", "Palavra de Poder: Morte", AdvancedTier, "Mata inimigo instantaneamente.", Mago, 45, Some("Infinity"), Magical, Single, None),
    Skill("m_a_5", "Ressurreição Verdadeira", AdvancedTier, "Traz alguém de volta à vida.", Mago, 50, None, Heal, Single, None)
  ]

  /** data/skills.ts:61-68 */
  const RogueSimple: seq<Skill> := [
    Skill("r_s_1", "Ataque Furtivo", SimpleTier, "Dano extra se estiver escondido.", Ladino, 3, Some("2d6"), Physical, Single, None),
    Skill("r_s_2", "Punga", SimpleTier, "Rouba ouro ou item.", Ladino, 2, None, Utility, Single, None),
    Skill("r_s_3", "Adaga Venenosa", SimpleTier, "Envenena o alvo.", Ladino, 3, Some("1d4"), Physical, Single, Some("Poison")),
    Skill("r_s_4", "Esconder-se", SimpleTier, "Torna-se difícil de ver.", Ladino, 2, None, Utility, SelfTarget, None),
    Skill("r_s_5", "Tiro Certeiro", SimpleTier, "Flecha com alta precisão.", Ladino, 3, Some("1d8+2"), Physical, Single, None),
    Skill("r_s_6", "Desarmar Armadilha", SimpleTier, "Lida com mecanismos.", Ladino, 1, None, Utility, Single, None),
    Skill("r_s_7", "Cegueira", SimpleTier, "Joga areia nos olhos.", Ladino, 3, None, Utility, Single, Some("Blind")),
    Skill("r_s_8", "Acrobacia", SimpleTier, "Esquiva ou move rápido.", Ladino, 2, None, Utility, SelfTarget, None)
  ]

  /** data/skills.ts:71-74 */
  const RogueMedium: seq<Skill> := [
    Skill("r_m_1", "Chuva de Flechas", MediumTier, "Atira em múltiplos alvos.", Ladino, 8, Some("3d6"), Physical, Aoe, None),
    Skill("r_m_2", "Golpe na Jugular", MediumTier, "Causa sangramento forte.", Ladino, 7, Some("1d8"), Physical, Single, Some("Bleed")),
    Skill("r_m_3", "Bomba de Fumaça", MediumTier, "Foge do combate ou confunde.", Ladino, 6, None, Utility, Aoe, None),
    Skill("r_m_4", "Assassinato", MediumTier, "Dano massivo fora de combate.", Ladino, 10, Some("6d6"), Physical, Single, None)
  ]

  /** data/skills.ts:77-80 */
  const RogueAdvanced: seq<Skill> := [
    Skill("r_a_1", "Sombra Dançante", AdvancedTier, "Ataca todos os inimigos.", Ladino, 15, Some("5d8"), Physical, Aoe, None),
    Skill("r_a_2", "Toque da Morte", AdvancedTier, "Chance de matar instantaneamente.", Ladino, 18, Some("10d6"), Physical, Single, None),
    Skill("r_a_3", "Mestre dos Disfarces", AdvancedTier, "Torna-se qualquer pessoa.", Ladino, 12, None, Utility, SelfTarget, None),
    Skill("r_a_4", "Roubo Lendário", AdvancedTier, "Rouba até o que está equipado.", Ladino, 20, None, Utility, Single, None)
  ]

  /** The Guerreiro part of the catalog (data/skills.ts:6-30). */
  const WarriorSkills: seq<Skill> := WarriorSimple + WarriorMedium + WarriorAdvanced
  /** The Mago part of the catalog (data/skills.ts:33-57). */
  const MageSkills: seq<Skill> := MageSimple + MageMedium + MageAdvanced
  /** The Ladino part of the catalog (data/skills.ts:60-80). */
  const RogueSkills: seq<Skill> := RogueSimple + RogueMedium + RogueAdvanced

  /** `SKILL_DATABASE` (data/skills.ts:4-81): the three parts in source order. */
  const SkillDatabase: seq<Skill> := WarriorSkills + MageSkills + RogueSkills

  // ------------------------------------------------------------ id layout

  function ClassLetter(c: CharacterClass): char {
    match c
    case Guerreiro => 'w'
    case Mago => 'm'
    case Ladino => 'r'
  }

  function TierLetter(t: SkillTier): char {
    match t
    case SimpleTier => 's'
    case MediumTier => 'm'
    case AdvancedTier => 'a'
  }

  /** The id prefix of a class and tier: "w_s_", "m_a_", ... */
  function IdPrefix(c: CharacterClass, t: SkillTier): (p: string)
    ensures |p| == 4
  {
    [ClassLetter(c), '_', TierLetter(t), '_']
  }

  /** Distinct class/tier pairs have distinct prefixes. */
  lemma IdPrefixInjective(c1: CharacterClass, t1: SkillTier, c2: CharacterClass, t2: SkillTier)
    ensures IdPrefix(c1, t1) == IdPrefix(c2, t2) ==> c1 == c2 && t1 == t2
  {
    if IdPrefix(c1, t1) == IdPrefix(c2, t2) {
      assert IdPrefix(c1, t1)[0] == IdPrefix(c2, t2)[0];
      assert IdPrefix(c1, t1)[2] == IdPrefix(c2, t2)[2];
    }
  }

  /** An entry is well formed: its id starts with the prefix of its class and
      tier, and its mana cost is not negative. */
  predicate WellFormed(s: Skill) {
    |s.id| >= 4 && s.id[..4] == IdPrefix(s.owner, s.tier) && s.manaCost >= 0
  }

  /** Every entry of `s` is a well-formed entry of class `c` and tier `t`. */
  predicate InSection(s: seq<Skill>, c: CharacterClass, t: SkillTier) {
    forall i :: 0 <= i < |s| ==> s[i].owner == c && s[i].tier == t && WellFormed(s[i])
  }

  predicate UniqueIds(s: seq<Skill>) {
    forall i, j :: 0 <= i < j < |s| ==> s[i].id != s[j].id
  }

  lemma WarriorSimpleShape()
    ensures |WarriorSimple| == 10 && InSection(WarriorSimple, Guerreiro, SimpleTier)
  {
  }

  lemma WarriorSimpleUnique()
    ensures UniqueIds(WarriorSimple)
  {
  }

  lemma WarriorMediumShape()
    ensures |WarriorMedium| == 5 && InSection(WarriorMedium, Guerreiro, MediumTier)
  {
  }

  lemma WarriorMediumUnique()
    ensures UniqueIds(WarriorMedium)
  {
  }

  lemma WarriorAdvancedShape()
    ensures |WarriorAdvanced| == 5 && InSection(WarriorAdvanced, Guerreiro, AdvancedTier)
  {
  }

  lemma WarriorAdvancedUnique()
    ensures UniqueIds(WarriorAdvanced)
  {
  }

  lemma MageSimpleShape()
    ensures |MageSimple| == 10 && InSection(MageSimple, Mago, SimpleTier)
  {
  }

  lemma MageSimpleUnique()
    ensures UniqueIds(MageSimple)
  {
  }

  lemma MageMediumShape()
    ensures |MageMedium| == 5 && InSection(MageMedium, Mago, MediumTier)
  {
  }

  lemma MageMediumUnique()
    ensures UniqueIds(MageMedium)
  {
  }

  lemma MageAdvancedShape()
    ensures |MageAdvanced| == 5 && InSection(MageAdvanced, Mago, AdvancedTier)
  {
  }

  lemma MageAdvancedUnique()
    ensures UniqueIds(MageAdvanced)
  {
  }

  lemma RogueSimpleShape()
    ensures |RogueSimple| == 8 && InSection(RogueSimple, Ladino, SimpleTier)
  {
  }

  lemma RogueSimpleUnique()
    ensures UniqueIds(RogueSimple)
  {
  }

  lemma RogueMediumShape()
    ensures |RogueMedium| == 4 && InSection(RogueMedium, Ladino, MediumTier)
  {
  }

  lemma RogueMediumUnique()
    ensures UniqueIds(RogueMedium)
  {
  }

  lemma RogueAdvancedShape()
    ensures |RogueAdvanced| == 4 && InSection(RogueAdvanced, Ladino, AdvancedTier)
  {
  }

  lemma RogueAdvancedUnique()
    ensures UniqueIds(RogueAdvanced)
  {
  }

  // ----------------------------------------------------- the whole table

  /** Every entry of `s` has an id whose four-character prefix is in `ps`. */
  predicate PrefixesIn(s: seq<Skill>, ps: set<string>) {
    forall i :: 0 <= i < |s| ==> |s[i].id| >= 4 && s[i].id[..4] in ps
  }

  /** Two blocks with unique ids and disjoint sets of id prefixes
      concatenate into a block with unique ids. */
  lemma AppendBlock(acc: seq<Skill>, ps: set<string>, blk: seq<Skill>, qs: set<string>)
    requires UniqueIds(acc) && PrefixesIn(acc, ps)
    requires UniqueIds(blk) && PrefixesIn(blk, qs)
    requires ps !! qs
    ensures UniqueIds(acc + blk) && PrefixesIn(acc + blk, ps + qs)
  {
    var all := acc + blk;
    forall i, j | 0 <= i < j < |all| ensures all[i].id != all[j].id {
      if i < |acc| && j >= |acc| {
        assert all[i].id[..4] in ps;
        assert all[j] == blk[j - |acc|];
        assert all[j].id[..4] in qs;
      } else if i >= |acc| {
        assert all[i] == blk[i - |acc|] && all[j] == blk[j - |acc|];
      }
    }
  }

  /** Three sections of one class, with their ids unique inside each. */
  lemma ClassBlockUnique(s1: seq<Skill>, s2: seq<Skill>, s3: seq<Skill>, c: CharacterClass)
    requires InSection(s1, c, SimpleTier) && InSection(s2, c, MediumTier) && InSection(s3, c, AdvancedTier)
    requires UniqueIds(s1) && UniqueIds(s2) && UniqueIds(s3)
    ensures UniqueIds(s1 + s2 + s3)
    ensures PrefixesIn(s1 + s2 + s3, {IdPrefix(c, SimpleTier), IdPrefix(c, MediumTier), IdPrefix(c, AdvancedTier)})
  {
    var p1, p2, p3 := IdPrefix(c, SimpleTier), IdPrefix(c, MediumTier), IdPrefix(c, AdvancedTier);
    assert p1[2] == 's' && p2[2] == 'm' && p3[2] == 'a';
    AppendBlock(s1, {p1}, s2, {p2});
    AppendBlock(s1 + s2, {p1, p2}, s3, {p3});
  }

  /** No two entries of the catalog share an id. */
  lemma DatabaseIdsUnique()
    ensures UniqueIds(SkillDatabase)
  {
    WarriorSimpleShape(); WarriorMediumShape(); WarriorAdvancedShape();
    MageSimpleShape(); MageMediumShape(); MageAdvancedShape();
    RogueSimpleShape(); RogueMediumShape(); RogueAdvancedShape();
    WarriorSimpleUnique(); WarriorMediumUnique(); WarriorAdvancedUnique();
    MageSimpleUnique(); MageMediumUnique(); MageAdvancedUnique();
    RogueSimpleUnique(); RogueMediumUnique(); RogueAdvancedUnique();
    ClassBlockUnique(WarriorSimple, WarriorMedium, WarriorAdvanced, Guerreiro);
    ClassBlockUnique(MageSimple, MageMedium, MageAdvanced, Mago);
    ClassBlockUnique(RogueSimple, RogueMedium, RogueAdvanced, Ladino);
    var w := {IdPrefix(Guerreiro, SimpleTier), IdPrefix(Guerreiro, MediumTier), IdPrefix(Guerreiro, AdvancedTier)};
    var m := {IdPrefix(Mago, SimpleTier), IdPrefix(Mago, MediumTier), IdPrefix(Mago, AdvancedTier)};
    var r := {IdPrefix(Ladino, SimpleTier), IdPrefix(Ladino, MediumTier), IdPrefix(Ladino, AdvancedTier)};
    assert forall p :: p in w ==> p[0] == 'w';
    assert forall p :: p in m ==> p[0] == 'm';
    assert forall p :: p in r ==> p[0] == 'r';
    AppendBlock(WarriorSkills, w, MageSkills, m);
    AppendBlock(WarriorSkills + MageSkills, w + m, RogueSkills, r);
  }

  /** The catalog has 56 entries; each one's id starts with the prefix of its
      class and tier ("w_", "m_", "r_" then "s_", "m_", "a_"), and no mana
      cost is negative (the section comments' cost ranges are not a
      property of the data: "Postura Defensiva" costs 0, "Desejo" 60). */
  lemma DatabaseWellFormed()
    ensures |SkillDatabase| == 56
    ensures forall i :: 0 <= i < |SkillDatabase| ==> WellFormed(SkillDatabase[i])
  {
    WarriorSimpleShape(); WarriorMediumShape(); WarriorAdvancedShape();
    MageSimpleShape(); MageMediumShape(); MageAdvancedShape();
    RogueSimpleShape(); RogueMediumShape(); RogueAdvancedShape();
    forall i | 0 <= i < |SkillDatabase| ensures WellFormed(SkillDatabase[i]) {
      assert SkillDatabase[i] in SkillDatabase;
    }
  }

  // ------------------------------------------------ class and tier views

  function OwnedBy(c: CharacterClass): Skill -> bool {
    (x: Skill) => x.owner == c
  }

  function OfTierPred(t: SkillTier): Skill -> bool {
    (x: Skill) => x.tier == t
  }

  /** `SKILL_DATABASE.filter(s => s.class === c)`. */
  function OfClass(s: seq<Skill>, c: CharacterClass): seq<Skill> {
    Filter(s, OwnedBy(c))
  }

  /** `s.filter(x => x.tier === t)`. */
  function OfTier(s: seq<Skill>, t: SkillTier): seq<Skill> {
    Filter(s, OfTierPred(t))
  }

  /** Selecting one class from a section keeps all of it or none of it. */
  lemma OfClassSection(sec: seq<Skill>, owner: CharacterClass, t: SkillTier, c: CharacterClass)
    requires InSection(sec, owner, t)
    ensures OfClass(sec, c) == if owner == c then sec else []
  {
    if owner == c { FilterAll(sec, OwnedBy(c)); } else { FilterNone(sec, OwnedBy(c)); }
  }

  lemma OfTierSection(sec: seq<Skill>, owner: CharacterClass, t: SkillTier, t2: SkillTier)
    requires InSection(sec, owner, t)
    ensures OfTier(sec, t2) == if t == t2 then sec else []
  {
    if t == t2 { FilterAll(sec, OfTierPred(t2)); } else { FilterNone(sec, OfTierPred(t2)); }
  }

  /** Selecting one class from three sections of the same owner. */
  lemma OfClassTriple(s1: seq<Skill>, s2: seq<Skill>, s3: seq<Skill>, owner: CharacterClass, c: CharacterClass)
    requires InSection(s1, owner, SimpleTier) && InSection(s2, owner, MediumTier) && InSection(s3, owner, AdvancedTier)
    ensures OfClass(s1 + s2 + s3, c) == if owner == c then s1 + s2 + s3 else []
  {
    var k := OwnedBy(c);
    FilterConcat(s1, s2, k);
    FilterConcat(s1 + s2, s3, k);
    assert OfClass(s1 + s2 + s3, c) == OfClass(s1, c) + OfClass(s2, c) + OfClass(s3, c);
    OfClassSection(s1, owner, SimpleTier, c);
    OfClassSection(s2, owner, MediumTier, c);
    OfClassSection(s3, owner, AdvancedTier, c);
  }

  /** The catalog entries of each class are exactly that class's three
      sections, in source order. */
  lemma ClassSections(c: CharacterClass)
    ensures OfClass(SkillDatabase, c) ==
      match c
      case Guerreiro => WarriorSkills
      case Mago => MageSkills
      case Ladino => RogueSkills
  {
    WarriorBlock(c);
    MageBlock(c);
    RogueBlock(c);
    FilterConcat(WarriorSkills, MageSkills, OwnedBy(c));
    FilterConcat(WarriorSkills + MageSkills, RogueSkills, OwnedBy(c));
  }

  lemma WarriorBlock(c: CharacterClass)
    ensures OfClass(WarriorSkills, c) == if c == Guerreiro then WarriorSkills else []
  {
    WarriorSimpleShape(); WarriorMediumShape(); WarriorAdvancedShape();
    OfClassTriple(WarriorSimple, WarriorMedium, WarriorAdvanced, Guerreiro, c);
  }

  lemma MageBlock(c: CharacterClass)
    ensures OfClass(MageSkills, c) == if c == Mago then MageSkills else []
  {
    MageSimpleShape(); MageMediumShape(); MageAdvancedShape();
    OfClassTriple(MageSimple, MageMedium, MageAdvanced, Mago, c);
  }

  lemma RogueBlock(c: CharacterClass)
    ensures OfClass(RogueSkills, c) == if c == Ladino then RogueSkills else []
  {
    RogueSimpleShape(); RogueMediumShape(); RogueAdvancedShape();
    OfClassTriple(RogueSimple, RogueMedium, RogueAdvanced, Ladino, c);
  }

  /** The tier `t` part of three sections of one class is the section of
      that tier. */
  lemma TierOfSections(s1: seq<Skill>, s2: seq<Skill>, s3: seq<Skill>, c: CharacterClass, t: SkillTier)
    requires InSection(s1, c, SimpleTier) && InSection(s2, c, MediumTier) && InSection(s3, c, AdvancedTier)
    ensures OfTier(s1 + s2 + s3, t) ==
      match t
      case SimpleTier => s1
      case MediumTier => s2
      case AdvancedTier => s3
  {
    var k := OfTierPred(t);
    FilterConcat(s1, s2, k);
    FilterConcat(s1 + s2, s3, k);
    assert OfTier(s1 + s2 + s3, t) == OfTier(s1, t) + OfTier(s2, t) + OfTier(s3, t);
    OfTierSection(s1, c, SimpleTier, t);
    OfTierSection(s2, c, MediumTier, t);
    OfTierSection(s3, c, AdvancedTier, t);
  }

  /** The number of catalog skills of class `c` and tier `t`. */
  function CatalogCount(c: CharacterClass, t: SkillTier): nat {
    |OfTier(OfClass(SkillDatabase, c), t)|
  }

  /** Per class, simple/medium/advanced: Guerreiro 10/5/5, Mago 10/5/5,
      Ladino 8/4/4; so every class has at least one skill of every tier. */
  lemma CatalogCounts()
    ensures CatalogCount(Guerreiro, SimpleTier) == 10 && CatalogCount(Guerreiro, MediumTier) == 5 && CatalogCount(Guerreiro, AdvancedTier) == 5
    ensures CatalogCount(Mago, SimpleTier) == 10 && CatalogCount(Mago, MediumTier) == 5 && CatalogCount(Mago, AdvancedTier) == 5
    ensures CatalogCount(Ladino, SimpleTier) == 8 && CatalogCount(Ladino, MediumTier) == 4 && CatalogCount(Ladino, AdvancedTier) == 4
    ensures forall c, t :: CatalogCount(c, t) >= 1
  {
    WarriorSimpleShape(); WarriorMediumShape(); WarriorAdvancedShape();
    MageSimpleShape(); MageMediumShape(); MageAdvancedShape();
    RogueSimpleShape(); RogueMediumShape(); RogueAdvancedShape();
    forall c, t ensures CatalogCount(c, t) == SectionSize(c, t) {
      ClassSections(c);
      match c
      case Guerreiro => TierOfSections(WarriorSimple, WarriorMedium, WarriorAdvanced, c, t);
      case Mago => TierOfSections(MageSimple, MageMedium, MageAdvanced, c, t);
      case Ladino => TierOfSections(RogueSimple, RogueMedium, RogueAdvanced, c, t);
    }
  }

  /** The length of the section of class `c` and tier `t`. */
  function SectionSize(c: CharacterClass, t: SkillTier): nat {
    match (c, t)
    case (Guerreiro, SimpleTier) => |WarriorSimple|
    case (Guerreiro, MediumTier) => |WarriorMedium|
    case (Guerreiro, AdvancedTier) => |WarriorAdvanced|
    case (Mago, SimpleTier) => |MageSimple|
    case (Mago, MediumTier) => |MageMedium|
    case (Mago, AdvancedTier) => |MageAdvanced|
    case (Ladino, SimpleTier) => |RogueSimple|
    case (Ladino, MediumTier) => |RogueMedium|
    case (Ladino, AdvancedTier) => |RogueAdvanced|
  }
}
