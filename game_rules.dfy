/** The pure rules inside App.tsx: the starting-skill budget and selection,
    the in-game skill draw and its gate, the state a narration reply
    commits, the rejection defaults, the dice suffix and the background
    track. The session object that applies them is in session.dfy. */
module GameRules {
  import opened Wrappers
  import opened Types
  import opened Text
  import opened Seqs
  import opened Skills

  /** The screens `menuStep` switches between (App.tsx:69). */
  datatype MenuStep = Title | Lore | ConfigStep | ClassStep | SkillsStep | Playing

  // ------------------------------------------------------------ the budget

  /** `Record<SkillTier, number>`: how many starting skills of each tier. */
  datatype Budget = Budget(simple: nat, medium: nat, advanced: nat) {
    function At(t: SkillTier): nat {
      match t
      case SimpleTier => simple
      case MediumTier => medium
      case AdvancedTier => advanced
    }

    function Total(): nat {
      simple + medium + advanced
    }
  }

  /** `getSkillBudget` (App.tsx:158-166): one simple skill always, a medium
      one for quick and medium games, an advanced one only for quick games. */
  function GetSkillBudget(length: GameLength): (b: Budget)
    ensures b.simple == 1
    ensures b.medium <= 1 && b.advanced <= b.medium
    ensures b.medium == 1 <==> length == Quick || length == Medium
    ensures b.advanced == 1 <==> length == Quick
  {
    if length == Quick then Budget(1, 1, 1)
    else if length == Medium then Budget(1, 1, 0)
    else Budget(1, 0, 0)
  }

  /** `maxEvents` in `processResponse` (App.tsx:196-199): how many skills a
      game may teach in play. */
  function MaxEvents(length: GameLength): (n: nat)
    ensures 1 <= n <= 3
    ensures n == 1 <==> length == Quick
    ensures n == 2 <==> length == Medium
  {
    if length == Quick then 1 else if length == Medium then 2 else 3
  }

  /** Shorter games start with more skills and teach fewer in play: the
      starting budget and the in-play cap always add up to four. */
  lemma BudgetTradesAgainstEvents(length: GameLength)
    ensures GetSkillBudget(length).Total() + MaxEvents(length) == 4
  {
  }

  // ------------------------------------------------------ skill selection

  /** `s.filter(x => x.tier === t).length`. */
  function TierCount(s: seq<Skill>, t: SkillTier): nat {
    |OfTier(s, t)|
  }

  /** Every skill has exactly one of the three tiers. */
  lemma {:induction false} TierCountsSum(s: seq<Skill>)
    ensures TierCount(s, SimpleTier) + TierCount(s, MediumTier) + TierCount(s, AdvancedTier) == |s|
  {
    if |s| > 0 {
      TierCountsSum(s[1..]);
    }
  }

  /** `isReady` (App.tsx:713-717): each tier's count equals its budget. */
  predicate IsReady(selected: seq<Skill>, b: Budget) {
    TierCount(selected, SimpleTier) == b.simple
    && TierCount(selected, MediumTier) == b.medium
    && TierCount(selected, AdvancedTier) == b.advanced
  }

  /** No tier holds more skills than the budget allows. */
  predicate WithinBudget(selected: seq<Skill>, b: Budget) {
    forall t: SkillTier :: TierCount(selected, t) <= b.At(t)
  }

  /** A ready selection holds the whole budget, one tier after another. */
  lemma ReadyMeansFullBudget(selected: seq<Skill>, b: Budget)
    ensures IsReady(selected, b) <==> forall t: SkillTier :: TierCount(selected, t) == b.At(t)
    ensures IsReady(selected, b) ==> |selected| == b.Total() && WithinBudget(selected, b)
  {
    TierCountsSum(selected);
    if IsReady(selected, b) {
      assert forall t: SkillTier :: TierCount(selected, t) == b.At(t) by {
        forall t: SkillTier ensures TierCount(selected, t) == b.At(t) {
          match t
          case SimpleTier =>
          case MediumTier =>
          case AdvancedTier =>
        }
      }
    }
  }

  /** `s.some(x => x.id === id)`. */
  predicate KnowsId(s: seq<Skill>, id: string) {
    exists i :: 0 <= i < |s| && s[i].id == id
  }

  function WithoutId(id: string): Skill -> bool {
    (x: Skill) => x.id != id
  }

  /** `toggleSkillSelection` (App.tsx:323-334): a selected skill is always
      removed (every entry with its id); an unselected one is added at the
      end only while the tier's count is below its limit. */
  function ToggleSelection(selected: seq<Skill>, skill: Skill, limit: int, currentCount: int): (r: seq<Skill>)
    ensures KnowsId(selected, skill.id) ==>
      && !KnowsId(r, skill.id)
      && |r| < |selected|
      && (forall i :: 0 <= i < |r| ==> r[i] in selected)
      && (forall i :: 0 <= i < |selected| && selected[i].id != skill.id ==> selected[i] in r)
    ensures !KnowsId(selected, skill.id) && currentCount < limit ==> r == selected + [skill]
    ensures !KnowsId(selected, skill.id) && currentCount >= limit ==> r == selected
  {
    if KnowsId(selected, skill.id) then
      var r := Filter(selected, WithoutId(skill.id));
      var k :| 0 <= k < |selected| && selected[k].id == skill.id;
      FilterDropsOne(selected, WithoutId(skill.id), k);
      r
    else if currentCount < limit then selected + [skill]
    else selected
  }

  /** A filter that rejects one element is strictly shorter. */
  lemma {:induction false} FilterDropsOne(s: seq<Skill>, keep: Skill -> bool, k: nat)
    requires k < |s| && !keep(s[k])
    ensures |Filter(s, keep)| < |s|
  {
    if k > 0 {
      FilterDropsOne(s[1..], keep, k - 1);
    }
  }

  /** Adding one skill raises its own tier's count by one and no other. */
  lemma AppendTierCount(s: seq<Skill>, x: Skill, t: SkillTier)
    ensures TierCount(s + [x], t) == TierCount(s, t) + (if x.tier == t then 1 else 0)
  {
    FilterConcat(s, [x], OfTierPred(t));
    assert [x][1..] == [];
  }

  /** Called as the skills screen calls it (the tier's budget as the limit,
      the tier's current count as the count, App.tsx:739-745), a toggle
      never takes a selection over budget. */
  lemma ToggleKeepsBudget(selected: seq<Skill>, skill: Skill, b: Budget)
    requires WithinBudget(selected, b)
    ensures WithinBudget(ToggleSelection(selected, skill, b.At(skill.tier), TierCount(selected, skill.tier)), b)
  {
    var r := ToggleSelection(selected, skill, b.At(skill.tier), TierCount(selected, skill.tier));
    if KnowsId(selected, skill.id) {
      forall t: SkillTier ensures TierCount(r, t) <= b.At(t) {
        FilterCountMonotone(selected, WithoutId(skill.id), OfTierPred(t));
      }
    } else if TierCount(selected, skill.tier) < b.At(skill.tier) {
      forall t: SkillTier ensures TierCount(r, t) <= b.At(t) {
        AppendTierCount(selected, skill, t);
      }
    }
  }

  /** Filtering keeps ids unique. */
  lemma {:induction false} FilterKeepsUnique(s: seq<Skill>, keep: Skill -> bool)
    requires UniqueIds(s)
    ensures UniqueIds(Filter(s, keep))
  {
    if |s| > 0 {
      var t := s[1..];
      assert UniqueIds(t) by {
        forall i, j | 0 <= i < j < |t| ensures t[i].id != t[j].id {
          assert t[i] == s[i + 1] && t[j] == s[j + 1];
        }
      }
      FilterKeepsUnique(t, keep);
      if keep(s[0]) {
        var f := Filter(t, keep);
        forall k | 0 <= k < |f| ensures f[k].id != s[0].id {
          var j :| 0 <= j < |t| && t[j] == f[k];
          assert t[j] == s[j + 1];
        }
        assert Filter(s, keep) == [s[0]] + f;
      }
    }
  }

  /** A toggle keeps the selection free of duplicate ids. */
  lemma ToggleKeepsUnique(selected: seq<Skill>, skill: Skill, limit: int, currentCount: int)
    requires UniqueIds(selected)
    ensures UniqueIds(ToggleSelection(selected, skill, limit, currentCount))
  {
    if KnowsId(selected, skill.id) {
      FilterKeepsUnique(selected, WithoutId(skill.id));
    } else if currentCount < limit {
      var r := selected + [skill];
      forall i, j | 0 <= i < j < |r| ensures r[i].id != r[j].id {
        if j == |selected| {
          assert r[i] == selected[i];
        } else {
          assert r[i] == selected[i] && r[j] == selected[j];
        }
      }
    }
  }

  /** Clicking an unselected skill that fits and then clicking it again
      gives back the selection it started from. */
  lemma AddThenRemove(selected: seq<Skill>, skill: Skill, limit: int, count: int, limit2: int, count2: int)
    requires !KnowsId(selected, skill.id) && count < limit
    ensures ToggleSelection(ToggleSelection(selected, skill, limit, count), skill, limit2, count2) == selected
  {
    var added := selected + [skill];
    assert added[|selected|].id == skill.id;
    FilterConcat(selected, [skill], WithoutId(skill.id));
    forall i | 0 <= i < |selected| ensures WithoutId(skill.id)(selected[i]) {
    }
    FilterAll(selected, WithoutId(skill.id));
    assert [skill][1..] == [];
  }

  // ------------------------------------------------------ the skill draw

  /** `s.some(x => x.tier === t)`. */
  predicate HasTier(s: seq<Skill>, t: SkillTier) {
    exists i :: 0 <= i < |s| && s[i].tier == t
  }

  function Unknown(known: seq<Skill>): Skill -> bool {
    (x: Skill) => !KnowsId(known, x.id)
  }

  /** `unlearned` (App.tsx:171-173): the skills of `catalog` (the
      component's `SKILL_DATABASE`) of the character's class whose ids it
      does not know, in catalog order. A class string that names none of
      the three classes matches no catalog entry. */
  function Unlearned(catalog: seq<Skill>, cls: ClassName, known: seq<Skill>): seq<Skill> {
    match Resolve(cls)
    case Some(c) => Filter(OfClass(catalog, c), Unknown(known))
    case None => []
  }

  /** Exactly the unknown catalog skills of the class are unlearned. */
  lemma UnlearnedMeaning(catalog: seq<Skill>, cls: ClassName, known: seq<Skill>)
    ensures var u := Unlearned(catalog, cls, known);
      && (forall i :: 0 <= i < |u| ==>
            u[i] in catalog && Resolve(cls) == Some(u[i].owner) && !KnowsId(known, u[i].id))
      && (forall x :: x in catalog && Resolve(cls) == Some(x.owner) && !KnowsId(known, x.id) ==> x in u)
  {
    match Resolve(cls)
    case Some(c) =>
      var all := OfClass(catalog, c);
      forall x | x in catalog && x.owner == c ensures x in all {
        var i :| 0 <= i < |catalog| && catalog[i] == x;
        assert OwnedBy(c)(catalog[i]);
      }
    case None =>
  }

  /** The tier ladder of `learnNewSkill` (App.tsx:177-187). `r1` and `r2`
      are the two `Math.random()` draws of lines 181 and 184. */
  function DrawPool(unlearned: seq<Skill>, hasSimple: bool, hasMedium: bool, r1: real, r2: real): (pool: seq<Skill>)
    ensures |unlearned| > 0 ==> |pool| > 0
  {
    var p0 := OfTier(unlearned, SimpleTier);
    var p1 := if |p0| == 0 || (hasSimple && r1 > 0.3) then OfTier(unlearned, MediumTier) else p0;
    var p2 := if |p1| == 0 || (hasMedium && r2 > 0.3) then OfTier(unlearned, AdvancedTier) else p1;
    if |p2| == 0 then unlearned else p2
  }

  /** The pool is drawn from the unlearned skills. */
  lemma DrawPoolWithin(unlearned: seq<Skill>, hasSimple: bool, hasMedium: bool, r1: real, r2: real)
    ensures var pool := DrawPool(unlearned, hasSimple, hasMedium, r1, r2);
      forall i :: 0 <= i < |pool| ==> pool[i] in unlearned
  {
  }

  /** The rungs of the ladder. The pool stays simple unless it is empty or
      the first test passes; it moves to medium when the first test passes
      and the second does not; the second test alone moves it to advanced,
      whatever the first one did, and so does an empty medium tier once
      the simple rung is passed; an advanced pool that turns out empty
      falls back to every unlearned skill, simple ones included. */
  lemma DrawLadder(u: seq<Skill>, hasSimple: bool, hasMedium: bool, r1: real, r2: real)
    ensures var pool := DrawPool(u, hasSimple, hasMedium, r1, r2);
      && (|OfTier(u, SimpleTier)| > 0 && !(hasSimple && r1 > 0.3) && !(hasMedium && r2 > 0.3)
          ==> pool == OfTier(u, SimpleTier))
      && ((|OfTier(u, SimpleTier)| == 0 || (hasSimple && r1 > 0.3)) && |OfTier(u, MediumTier)| > 0
          && !(hasMedium && r2 > 0.3)
          ==> pool == OfTier(u, MediumTier))
      && (hasMedium && r2 > 0.3 && |OfTier(u, AdvancedTier)| > 0 ==> pool == OfTier(u, AdvancedTier))
      && (hasMedium && r2 > 0.3 && |OfTier(u, AdvancedTier)| == 0 ==> pool == u)
      && ((|OfTier(u, SimpleTier)| == 0 || (hasSimple && r1 > 0.3)) && |OfTier(u, MediumTier)| == 0
          && !(hasMedium && r2 > 0.3)
          ==> pool == (if |OfTier(u, AdvancedTier)| > 0 then OfTier(u, AdvancedTier) else u))
  {
  }

  /** The pool is always the whole unlearned list or one tier of it. */
  lemma DrawIsOneTierOrAll(u: seq<Skill>, hasSimple: bool, hasMedium: bool, r1: real, r2: real)
    ensures var pool := DrawPool(u, hasSimple, hasMedium, r1, r2);
      pool == u || exists t: SkillTier :: pool == OfTier(u, t)
  {
    var pool := DrawPool(u, hasSimple, hasMedium, r1, r2);
    if pool != u {
      if pool == OfTier(u, SimpleTier) {
        assert pool == OfTier(u, SimpleTier);
      } else if pool == OfTier(u, MediumTier) {
        assert pool == OfTier(u, MediumTier);
      } else {
        assert pool == OfTier(u, AdvancedTier);
      }
    }
  }

  /** `Math.floor(r * n)` for a draw `r` in [0, 1): an index into a
      non-empty list of length `n`. */
  function PickIndex(r: real, n: nat): (i: nat)
    requires 0.0 <= r < 1.0 && n > 0
    ensures i < n
  {
    assert r * n as real < n as real;
    (r * n as real).Floor
  }

  /** `learnNewSkill` (App.tsx:168-190): the draw of `DrawPool`, then a
      uniform pick from the pool. */
  function LearnNewSkill(catalog: seq<Skill>, mode: GameMode, cls: ClassName, known: seq<Skill>, r1: real, r2: real, rIdx: real): Option<Skill>
    requires 0.0 <= rIdx < 1.0
  {
    if mode == SimpleMode then None
    else
      var u := Unlearned(catalog, cls, known);
      if |u| == 0 then None
      else
        var pool := DrawPool(u, HasTier(known, SimpleTier), HasTier(known, MediumTier), r1, r2);
        Some(pool[PickIndex(rIdx, |pool|)])
  }

  /** What `learnNewSkill` promises: nothing in the narrative mode or when
      the class has nothing left to teach; otherwise a catalog skill of the
      character's class that it does not know yet. */
  lemma LearnNewSkillMeaning(catalog: seq<Skill>, mode: GameMode, cls: ClassName, known: seq<Skill>, r1: real, r2: real, rIdx: real)
    requires 0.0 <= rIdx < 1.0
    ensures var r := LearnNewSkill(catalog, mode, cls, known, r1, r2, rIdx);
      && (r.None? <==> mode == SimpleMode || |Unlearned(catalog, cls, known)| == 0)
      && (r.Some? ==>
            r.value in catalog && Resolve(cls) == Some(r.value.owner) && !KnowsId(known, r.value.id))
  {
    if mode != SimpleMode && |Unlearned(catalog, cls, known)| > 0 {
      var u := Unlearned(catalog, cls, known);
      var pool := DrawPool(u, HasTier(known, SimpleTier), HasTier(known, MediumTier), r1, r2);
      DrawPoolWithin(u, HasTier(known, SimpleTier), HasTier(known, MediumTier), r1, r2);
      UnlearnedMeaning(catalog, cls, known);
      assert pool[PickIndex(rIdx, |pool|)] in u;
    }
  }

  /** A character who has learned every skill of its class learns no more. */
  lemma FullGrimoireLearnsNothing(catalog: seq<Skill>, mode: GameMode, c: CharacterClass, known: seq<Skill>, r1: real, r2: real, rIdx: real)
    requires 0.0 <= rIdx < 1.0
    requires forall i :: 0 <= i < |catalog| && catalog[i].owner == c ==> KnowsId(known, catalog[i].id)
    ensures LearnNewSkill(catalog, mode, Known(c), known, r1, r2, rIdx).None?
  {
    var all := OfClass(catalog, c);
    forall i | 0 <= i < |all| ensures !Unknown(known)(all[i]) {
      var j :| 0 <= j < |catalog| && catalog[j] == all[i];
    }
    FilterNone(all, Unknown(known));
    LearnNewSkillMeaning(catalog, mode, Known(c), known, r1, r2, rIdx);
  }

  /** The learning gate of `processResponse` (App.tsx:201): the reply asks
      for it, the game has not used up its events, and it is the second act. */
  predicate LearnGate(res: AIResponse, learnedCount: int, act: int, length: GameLength) {
    && res.statusUpdate.Some?
    && res.statusUpdate.value.learnSkill == Some(true)
    && learnedCount < MaxEvents(length)
    && act == 2
  }

  /** `newSkill` in `processResponse` (App.tsx:195-203): a draw is made only
      behind the gate, from the character's class and skills. */
  function Drawn(catalog: seq<Skill>, res: AIResponse, gs: GameState, ch: Character, cfg: GameConfig, r1: real, r2: real, rIdx: real): Option<Skill>
    requires 0.0 <= rIdx < 1.0
  {
    if LearnGate(res, gs.skillsLearnedCount, gs.currentAct, cfg.length) then
      LearnNewSkill(catalog, cfg.mode, ch.charClass, ch.skills, r1, r2, rIdx)
    else None
  }

  /** A skill is drawn only behind the gate, in the tactical mode, from the
      character's class and not already known; and behind the gate a skill
      is drawn whenever the class has one left. */
  lemma DrawnMeaning(catalog: seq<Skill>, res: AIResponse, gs: GameState, ch: Character, cfg: GameConfig, r1: real, r2: real, rIdx: real)
    requires 0.0 <= rIdx < 1.0
    ensures var r := Drawn(catalog, res, gs, ch, cfg, r1, r2, rIdx);
      && (r.Some? ==> LearnGate(res, gs.skillsLearnedCount, gs.currentAct, cfg.length))
      && (r.Some? ==> cfg.mode == CompleteMode && Resolve(ch.charClass) == Some(r.value.owner))
      && (r.Some? ==> r.value in catalog && !KnowsId(ch.skills, r.value.id))
      && ((LearnGate(res, gs.skillsLearnedCount, gs.currentAct, cfg.length) && cfg.mode == CompleteMode
           && |Unlearned(catalog, ch.charClass, ch.skills)| > 0) ==> r.Some?)
  {
    LearnNewSkillMeaning(catalog, cfg.mode, ch.charClass, ch.skills, r1, r2, rIdx);
  }

  // -------------------------------------------------------- the new state

  /** `Math.min(max, Math.max(0, value))`. */
  function ClampStat(value: int, max: int): (r: int)
    ensures max >= 0 ==> 0 <= r <= max
    ensures 0 <= value <= max ==> r == value
    ensures value < 0 && max >= 0 ==> r == 0
    ensures value > max ==> r == max
  {
    var low := if value < 0 then 0 else value;
    if max < low then max else low
  }

  /** The character update of `processResponse` (App.tsx:222-235), made
      only when the reply has a `statusUpdate`: a missing delta counts as
      0, hp and mp are clamped, gold and xp are not, found items and then
      the learned skill are appended; `newStatus` is not applied. */
  function ApplyStatus(ch: Character, u: StatusUpdate, itemsFound: Option<seq<Item>>, newSkill: Option<Skill>): (r: Character)
    ensures ch.maxHp >= 0 ==> 0 <= r.hp <= r.maxHp
    ensures ch.maxMp >= 0 ==> 0 <= r.mp <= r.maxMp
    ensures r.hp == ClampStat(ch.hp + u.hpChange.GetOr(0), ch.maxHp)
    ensures r.mp == ClampStat(ch.mp + u.mpChange.GetOr(0), ch.maxMp)
    ensures r.gold == ch.gold + u.goldChange.GetOr(0) && r.xp == ch.xp + u.xpChange.GetOr(0)
    ensures r.inventory == ch.inventory + itemsFound.GetOr([])
    ensures r.skills == ch.skills + (if newSkill.Some? then [newSkill.value] else [])
    ensures r.(hp := ch.hp, mp := ch.mp, gold := ch.gold, xp := ch.xp, inventory := ch.inventory, skills := ch.skills) == ch
  {
    ch.(hp := ClampStat(ch.hp + u.hpChange.GetOr(0), ch.maxHp),
        mp := ClampStat(ch.mp + u.mpChange.GetOr(0), ch.maxMp),
        gold := ch.gold + u.goldChange.GetOr(0),
        xp := ch.xp + u.xpChange.GetOr(0),
        inventory := ch.inventory + itemsFound.GetOr([]),
        skills := if newSkill.Some? then ch.skills + [newSkill.value] else ch.skills)
  }

  /** An update with no deltas, no items and no skill leaves a character
      whose hp and mp are in range exactly as it was. */
  lemma EmptyUpdateChangesNothing(ch: Character, u: StatusUpdate)
    requires 0 <= ch.hp <= ch.maxHp && 0 <= ch.mp <= ch.maxMp
    requires u.hpChange.None? && u.mpChange.None? && u.goldChange.None? && u.xpChange.None?
    ensures ApplyStatus(ch, u, None, None) == ch
  {
  }

  /** Appending a skill the character does not know keeps its ids unique. */
  lemma ApplyKeepsUnique(ch: Character, u: StatusUpdate, itemsFound: Option<seq<Item>>, newSkill: Option<Skill>)
    requires UniqueIds(ch.skills)
    requires newSkill.Some? ==> !KnowsId(ch.skills, newSkill.value.id)
    ensures UniqueIds(ApplyStatus(ch, u, itemsFound, newSkill).skills)
  {
    if newSkill.Some? {
      var s := ch.skills + [newSkill.value];
      forall i, j | 0 <= i < j < |s| ensures s[i].id != s[j].id {
        assert s[i] == ch.skills[i];
        if j < |ch.skills| {
          assert s[j] == ch.skills[j];
        }
      }
    }
  }

  /** The longest story history the client keeps (App.tsx:212). */
  const HistoryLimit: nat := 20

  /** The game-state update of `processResponse` (App.tsx:205-214). */
  function CommitTurn(gs: GameState, res: AIResponse, learned: bool): (r: GameState)
    ensures r.storyText == res.story && r.choices == res.choices.GetOr([])
    ensures r.history == LastN(gs.history + [res.story], HistoryLimit)
    ensures res.statusUpdate.Some? && res.statusUpdate.value.currentAct != 0 ==>
      r.currentAct == res.statusUpdate.value.currentAct
    ensures res.statusUpdate.None? || res.statusUpdate.value.currentAct == 0 ==> r.currentAct == gs.currentAct
    ensures r.isGameOver <==> res.statusUpdate.Some? && res.statusUpdate.value.gameOver == Some(true)
    ensures r.rejectionMessage.None?
    ensures r.skillsLearnedCount == gs.skillsLearnedCount + (if learned then 1 else 0)
    ensures r.currentImage == gs.currentImage
  {
    var act := if res.statusUpdate.Some? && res.statusUpdate.value.currentAct != 0
      then res.statusUpdate.value.currentAct else gs.currentAct;
    var over := res.statusUpdate.Some? && res.statusUpdate.value.gameOver == Some(true);
    gs.(storyText := res.story,
        choices := res.choices.GetOr([]),
        currentAct := act,
        isGameOver := over,
        rejectionMessage := None,
        history := LastN(gs.history + [res.story], HistoryLimit),
        skillsLearnedCount := if learned then gs.skillsLearnedCount + 1 else gs.skillsLearnedCount)
  }

  /** The history is a window: at most 20 stories, the newest last, the
      oldest dropped first, and nothing dropped while there is room. */
  lemma HistoryWindow(gs: GameState, res: AIResponse, learned: bool)
    ensures var h := CommitTurn(gs, res, learned).history;
      && |h| <= HistoryLimit
      && h[|h| - 1] == res.story
      && (|gs.history| < HistoryLimit ==> h == gs.history + [res.story])
      && (|gs.history| >= HistoryLimit ==> h == gs.history[|gs.history| - HistoryLimit + 1..] + [res.story])
  {
    var g := gs.history + [res.story];
    var h := CommitTurn(gs, res, learned).history;
    if |gs.history| >= HistoryLimit {
      assert h == g[|g| - HistoryLimit..];
      assert g[|g| - HistoryLimit..] == gs.history[|gs.history| - HistoryLimit + 1..] + [res.story];
    }
  }

  /** Nothing keeps the act from moving backwards: a reply that reports an
      earlier act is taken as it is. */
  lemma ActCanRegress(gs: GameState, res: AIResponse, learned: bool)
    requires res.statusUpdate.Some? && res.statusUpdate.value.currentAct != 0
    requires res.statusUpdate.value.currentAct < gs.currentAct
    ensures CommitTurn(gs, res, learned).currentAct < gs.currentAct
  {
  }

  /** Game over is not sticky: a later reply without the flag clears it. */
  lemma GameOverNotSticky(gs: GameState, res: AIResponse, learned: bool)
    requires gs.isGameOver
    requires res.statusUpdate.None? || res.statusUpdate.value.gameOver != Some(true)
    ensures !CommitTurn(gs, res, learned).isGameOver
  {
  }

  /** The in-play learning counter never passes the game's cap: it starts
      at 0 and grows only behind the gate. */
  lemma LearnCounterCapped(catalog: seq<Skill>, gs: GameState, res: AIResponse, ch: Character, cfg: GameConfig, r1: real, r2: real, rIdx: real)
    requires 0.0 <= rIdx < 1.0
    requires 0 <= gs.skillsLearnedCount <= MaxEvents(cfg.length)
    ensures var n := CommitTurn(gs, res, Drawn(catalog, res, gs, ch, cfg, r1, r2, rIdx).Some?).skillsLearnedCount;
      gs.skillsLearnedCount <= n <= MaxEvents(cfg.length)
      && (n == gs.skillsLearnedCount + 1 <==> Drawn(catalog, res, gs, ch, cfg, r1, r2, rIdx).Some?)
  {
    DrawnMeaning(catalog, res, gs, ch, cfg, r1, r2, rIdx);
  }

  // ---------------------------------------------------- actions and dice

  /** The text has a character `trim` would keep. */
  predicate HasVisible(text: string) {
    exists i :: 0 <= i < |text| && !IsWhitespace(text[i])
  }

  /** The guard of `handleAction` (App.tsx:249): an action goes through
      only when its text has a visible character and no request or roll is
      under way. */
  predicate AcceptsInput(text: string, loading: bool, showDice: bool) {
    HasVisible(text) && !loading && !showDice
  }

  /** The guard is the source's `!text.trim() || loading || showDice`,
      negated: trimming leaves something exactly when a visible character
      is there. */
  lemma AcceptsInputIsTrimGuard(text: string, loading: bool, showDice: bool)
    ensures AcceptsInput(text, loading, showDice) <==> !(Trim(text) == [] || loading || showDice)
  {
    TrimEmptyIffBlank(text);
  }

  /** The facts of the action context (App.tsx:255-263), taken from the
      character, the act and the configuration at the moment of the action. */
  function ContextOf(ch: Character, gs: GameState, cfg: GameConfig): Context {
    Context(
      ch.charClass, ch.hp, ch.mp, ch.maxMp, gs.currentAct, cfg.theme,
      seq(|ch.skills|, i requires 0 <= i < |ch.skills| => (ch.skills[i].name, ch.skills[i].manaCost)),
      seq(|ch.inventory|, i requires 0 <= i < |ch.inventory| => ch.inventory[i].name),
      cfg.mode)
  }

  const DefaultReason: string := "Ação negada por violação de regras."
  const DefaultMotive: string := "O Advogado de Regras balança a cabeça negativamente."

  /** The rejection shown for an implausible action (App.tsx:272-275): the
      validator's reason and motive, each replaced by its fixed default when
      missing or empty. */
  function RejectionFrom(v: ValidationResponse): (r: Rejection)
    ensures r.text != [] && r.motive != []
    ensures v.reason.Some? && v.reason.value != [] ==> r.text == v.reason.value
    ensures v.reason.None? || v.reason.value == [] ==> r.text == DefaultReason
    ensures v.motive.Some? && v.motive.value != [] ==> r.motive == v.motive.value
    ensures v.motive.None? || v.motive.value == [] ==> r.motive == DefaultMotive
  {
    Rejection(OrText(v.reason, DefaultReason), OrText(v.motive, DefaultMotive))
  }

  const RollOpen: string := " (Rolagem de Dado [d20]: "

  /** `textWithRoll` (App.tsx:297): the action text with the roll appended. */
  function WithRoll(text: string, roll: int): (r: string)
    ensures |r| > |text| + |RollOpen| && r[..|text|] == text
    ensures r[|text|..|text| + |RollOpen|] == RollOpen && r[|r| - 1] == ')'
  {
    text + RollOpen + IntToString(roll) + ")"
  }

  /** The roll can be read back from the message: what lies between the
      opening text and the closing parenthesis is its decimal rendering. */
  lemma RollReadBack(text: string, roll: int)
    requires 1 <= roll <= 20
    ensures var r := WithRoll(text, roll);
      var digits := r[|text| + |RollOpen|..|r| - 1];
      && (forall i :: 0 <= i < |digits| ==> IsDigit(digits[i]))
      && DigitsValue(digits) == roll
  {
    var r := WithRoll(text, roll);
    assert r[|text| + |RollOpen|..|r| - 1] == NatToString(roll);
    NatToStringRoundTrip(roll);
  }

  /** The buttons under the story (App.tsx:892): the reply's choices, or a
      single "Explorar Adiante" when there are none. */
  function ShownChoices(choices: seq<GameChoice>): (r: seq<GameChoice>)
    ensures |r| > 0
    ensures |choices| > 0 ==> r == choices
    ensures |choices| == 0 ==> r == [GameChoice("Explorar Adiante", "continue", None)]
  {
    if |choices| > 0 then choices else [GameChoice("Explorar Adiante", "continue", None)]
  }

  // ------------------------------------------------------- new characters

  /** `INITIAL_CHARACTER` (App.tsx:11-27), without its empty equipment. */
  const InitialCharacter: Character := Character(
    "Herói", Known(Guerreiro), 30, 30, 10, 10, 1, 20, 0, 14, 8, [], [], [])

  /** The starting mana of the tactical mode (App.tsx:360). */
  function BaseMp(c: CharacterClass): (mp: int)
    ensures mp == 30 <==> c == Mago
    ensures mp == 15 <==> c == Ladino
    ensures mp == 10 <==> c == Guerreiro
  {
    match c
    case Mago => 30
    case Ladino => 15
    case Guerreiro => 10
  }

  /** The hero of `startGameSimple` (App.tsx:339) or `startGameWithSkills`
      (App.tsx:362-368): the initial character with the chosen class and
      skills, and in the tactical mode the class's mana. */
  function NewCharacter(c: CharacterClass, skills: seq<Skill>, withMp: bool): (ch: Character)
    ensures ch.charClass == Known(c) && ch.skills == skills
    ensures ch.mp == ch.maxMp && ch.maxMp == (if withMp then BaseMp(c) else 10)
    ensures ch.hp == ch.maxHp == 30
    ensures ch.(charClass := Known(Guerreiro), skills := [], mp := 10, maxMp := 10) == InitialCharacter
  {
    if withMp then InitialCharacter.(charClass := Known(c), skills := skills, mp := BaseMp(c), maxMp := BaseMp(c))
    else InitialCharacter.(charClass := Known(c), skills := skills)
  }

  // -------------------------------------------------------------- music

  /** The background track of the music effect (App.tsx:95-122): the menu
      theme on every menu screen and after game over, otherwise the act's
      theme, with the first act's for any act other than 2 and 3. */
  function BackgroundTrack(step: MenuStep, isGameOver: bool, act: int): (file: string)
    ensures file == "menu.mp3" <==> step != Playing || isGameOver
    ensures file == "act2.mp3" <==> step == Playing && !isGameOver && act == 2
    ensures file == "act3.mp3" <==> step == Playing && !isGameOver && act == 3
    ensures file == "act1.mp3" <==> step == Playing && !isGameOver && act != 2 && act != 3
  {
    if step != Playing || isGameOver then "menu.mp3"
    else if act == 2 then "act2.mp3"
    else if act == 3 then "act3.mp3"
    else "act1.mp3"
  }
}
