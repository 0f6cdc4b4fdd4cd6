/** The player object of game.js (317-334): health, experience, class stats, the perk and weapon
    modifiers, and the two slot arrays with the item-handling functions that update them in place
    (game.js:481-492, 630), the weapon effects (game.js:462-470) and the healing salve (game.js:659). */
module Players {
  import opened Wrappers
  import opened Config
  import opened Inventory
  import opened Utils
  import opened Crafting
  import Geometry

  type ItemSlot = Option<Slot<Item>>

  // ---------------------------------------------------------------- perk and weapon modifiers

  /** The perk and weapon fields of the player object (game.js:322-327), with the day speed
      penalty that the weapon effects recompute. */
  datatype Modifiers = Modifiers(
    bonusMaxHealth: real,
    bonusSwordDamage: real,
    bonusMeleeDamage: real,
    bonusMovementSpeedMult: real,
    bonusBowAttackSpeedMult: real,
    bonusLifesteal: real,
    bonusNightSpeedMult: real,
    bonusDaySpeedPenaltyMult: real,
    bonusUndeadHealthMult: real,
    bonusMaxSummons: real,
    bonusSummonHealthMult: real,
    bonusSummonDamageMult: real,
    weaponAttackSpeedMult: real,
    weaponDamageMult: real,
    weaponMoveSpeedMult: real,
    weaponRangeMult: real,
    weaponOnKillHeal: real,
    daySpeedPenalty: real)

  /** The modifiers as the game's reset leaves them (game.js:695-696). */
  function FreshModifiers(daySpeedPenalty: real): Modifiers {
    Modifiers(0.0, 0.0, 0.0, 1.0, 1.0, 0.0, 1.0, 1.0, 1.0, 0.0, 1.0, 1.0, 1.0, 1.0, 1.0, 1.0, 0.0, daySpeedPenalty)
  }

  /** The class table row applyClassStats uses; a player without a class gets neutral values. */
  function StartingStats(c: Option<PlayerClass>): ClassStats {
    if c.Some? then ClassData(c.value) else ClassStats(1.0, 1.0, 1.0, 1.0, 0.0, 1.0, 0)
  }

  /** `CLASS_DATA[className]?.daySpeedPenalty || 1.0`: every class has a positive penalty, so the
      fallback is taken only without a class. */

  function BasePenalty(c: Option<PlayerClass>): real {
    if c.Some? then ClassData(c.value).daySpeedPenalty else 1.0
  }

  /** The first step of applyWeaponEffects: the five weapon fields go back to neutral. */
  function ResetWeapon(m: Modifiers): Modifiers {
    m.(weaponAttackSpeedMult := 1.0, weaponDamageMult := 1.0, weaponMoveSpeedMult := 1.0,
       weaponRangeMult := 1.0, weaponOnKillHeal := 0.0)
  }

  /** One case of the `switch (effect)` in applyWeaponEffects (game.js:464-468). The
      `weaponMoveSpeedMult` key scales `bonusMovementSpeedMult`, not the weapon field of that name;
      a day-penalty multiplier recomputes the penalty from the class's base value at once. */
  function ApplyEffect(m: Modifiers, e: Effect, base: real): Modifiers {
    match e.key
    case WeaponDamageMult => m.(weaponDamageMult := m.weaponDamageMult * e.value)
    case WeaponAttackSpeedMult => m.(weaponAttackSpeedMult := m.weaponAttackSpeedMult * e.value)
    case WeaponMoveSpeedMult => m.(bonusMovementSpeedMult := m.bonusMovementSpeedMult * e.value)
    case BonusMaxHealth => m.(bonusMaxHealth := m.bonusMaxHealth + e.value)
    case BonusMeleeDamage => m.(bonusMeleeDamage := m.bonusMeleeDamage + e.value)
    case WeaponRangeMult => m.(weaponRangeMult := m.weaponRangeMult * e.value)
    case WeaponOnKillHeal => m.(weaponOnKillHeal := m.weaponOnKillHeal + e.value)
    case BonusMaxSummons => m.(bonusMaxSummons := m.bonusMaxSummons + e.value)
    case BonusUndeadHealthMult => m.(bonusUndeadHealthMult := m.bonusUndeadHealthMult * e.value)
    case BonusSummonHealthMult => m.(bonusSummonHealthMult := m.bonusSummonHealthMult * e.value)
    case BonusSummonDamageMult => m.(bonusSummonDamageMult := m.bonusSummonDamageMult * e.value)
    case BonusLifesteal => m.(bonusLifesteal := m.bonusLifesteal + e.value)
    case BonusNightSpeedMult => m.(bonusNightSpeedMult := m.bonusNightSpeedMult * e.value)
    case BonusDaySpeedPenaltyMult =>
      var mult := m.bonusDaySpeedPenaltyMult * e.value;
      m.(bonusDaySpeedPenaltyMult := mult, daySpeedPenalty := Geometry.Min(1.0, base * mult))
  }

  /** The effects applied in order, as the `for ... in` loop does. */
  function FoldEffects(m: Modifiers, es: seq<Effect>, base: real): Modifiers
    decreases |es|
  {
    if es == [] then m else ApplyEffect(FoldEffects(m, es[..|es| - 1], base), es[|es| - 1], base)
  }

  /** The total of the values an effect list gives one key. */
  function EffectSum(es: seq<Effect>, key: EffectKey): real
    decreases |es|
  {
    if es == [] then 0.0
    else EffectSum(es[..|es| - 1], key) + (if es[|es| - 1].key == key then es[|es| - 1].value else 0.0)
  }

  predicate Mentions(es: seq<Effect>, key: EffectKey) {
    exists k :: 0 <= k < |es| && es[k].key == key
  }

  /** The weapon fields after a choice depend on the choice alone: choosing again replaces the
      earlier weapon's multipliers rather than stacking on them. */
  lemma {:induction false} WeaponFieldsFromChoiceOnly(m1: Modifiers, m2: Modifiers, es: seq<Effect>, base: real)
    ensures SameWeapon(FoldEffects(ResetWeapon(m1), es, base), FoldEffects(ResetWeapon(m2), es, base))
    decreases |es|
  {
    if es != [] {
      WeaponFieldsFromChoiceOnly(m1, m2, es[..|es| - 1], base);
      WeaponFieldsStep(FoldEffects(ResetWeapon(m1), es[..|es| - 1], base),
        FoldEffects(ResetWeapon(m2), es[..|es| - 1], base), es[|es| - 1], base);
    }
  }

  /** The five weapon fields of two modifier records agree. */
  predicate SameWeapon(a: Modifiers, b: Modifiers) {
    && a.weaponAttackSpeedMult == b.weaponAttackSpeedMult
    && a.weaponDamageMult == b.weaponDamageMult
    && a.weaponMoveSpeedMult == b.weaponMoveSpeedMult
    && a.weaponRangeMult == b.weaponRangeMult
    && a.weaponOnKillHeal == b.weaponOnKillHeal
  }

  /** One effect changes the weapon fields of two records alike when they start alike. */
  lemma WeaponFieldsStep(a: Modifiers, b: Modifiers, e: Effect, base: real)
    requires SameWeapon(a, b)
    ensures SameWeapon(ApplyEffect(a, e, base), ApplyEffect(b, e, base))
  {
  }

  /** The `weaponMoveSpeedMult` field stays neutral whatever the choice: its key is routed to the
      movement bonus. */
  lemma {:induction false} WeaponMoveSpeedStaysNeutral(m: Modifiers, es: seq<Effect>, base: real)
    ensures FoldEffects(ResetWeapon(m), es, base).weaponMoveSpeedMult == 1.0
    decreases |es|
  {
    if es != [] {
      WeaponMoveSpeedStaysNeutral(m, es[..|es| - 1], base);
    }
  }

  /** The health bonus accumulates the sum of the choice's `bonusMaxHealth` values. */
  lemma {:induction false} MaxHealthBonusAccumulates(m: Modifiers, es: seq<Effect>, base: real)
    ensures FoldEffects(m, es, base).bonusMaxHealth == m.bonusMaxHealth + EffectSum(es, BonusMaxHealth)
    decreases |es|
  {
    if es != [] {
      MaxHealthBonusAccumulates(m, es[..|es| - 1], base);
    }
  }

  /** The day speed penalty is left alone unless a penalty multiplier appears, and after one it
      never exceeds 1. */
  lemma {:induction false} DayPenaltyCapped(m: Modifiers, es: seq<Effect>, base: real)
    ensures !Mentions(es, BonusDaySpeedPenaltyMult) ==> FoldEffects(m, es, base).daySpeedPenalty == m.daySpeedPenalty
    ensures Mentions(es, BonusDaySpeedPenaltyMult) ==> FoldEffects(m, es, base).daySpeedPenalty <= 1.0
    decreases |es|
  {
    if es != [] {
      var n := |es| - 1;
      DayPenaltyCapped(m, es[..n], base);
      if Mentions(es, BonusDaySpeedPenaltyMult) && es[n].key != BonusDaySpeedPenaltyMult {
        var k :| 0 <= k < |es| && es[k].key == BonusDaySpeedPenaltyMult;
        assert es[..n][k] == es[k];
      }
      if Mentions(es[..n], BonusDaySpeedPenaltyMult) {
        var k :| 0 <= k < n && es[..n][k].key == BonusDaySpeedPenaltyMult;
        assert es[k] == es[..n][k];
      }
    }
  }

  lemma {:induction false} EffectSumNonNegative(es: seq<Effect>, key: EffectKey)
    requires forall k :: 0 <= k < |es| ==> es[k].value > 0.0
    ensures EffectSum(es, key) >= 0.0
    decreases |es|
  {
    if es != [] {
      EffectSumNonNegative(es[..|es| - 1], key);
    }
  }

  /** No weapon on offer lowers maximum health. */
  lemma WeaponChoiceNeverLowersMaxHealth(c: Option<PlayerClass>, k: nat)
    requires k < 2
    ensures EffectSum(WeaponChoices(c)[k].effects, BonusMaxHealth) >= 0.0
  {
    var es := WeaponChoices(c)[k].effects;
    forall e | 0 <= e < |es|
      ensures es[e].value > 0.0
    {
      WeaponChoicesSane(c, k, e);
    }
    EffectSumNonNegative(es, BonusMaxHealth);
  }

  // ---------------------------------------------------------------- the level-3 perk

  /** The modifier change of a level-3 perk (game.js:449): option 1, or any other choice index,
      for the player's class. The necromancer's first option lowers the shared kill requirement
      of the class table instead, so it leaves the modifiers as they are; a player without a
      class gets nothing. */
  function PerkModifiers(c: Option<PlayerClass>, choice: int, m: Modifiers): (r: Modifiers)
    ensures r.bonusMaxHealth > m.bonusMaxHealth <==> choice == 1 && c.Some? && c.value in {Knight, Scout, Tank}
    ensures r.bonusMaxHealth >= m.bonusMaxHealth
    ensures r.weaponAttackSpeedMult == m.weaponAttackSpeedMult && r.weaponDamageMult == m.weaponDamageMult
    ensures r.weaponMoveSpeedMult == m.weaponMoveSpeedMult && r.weaponRangeMult == m.weaponRangeMult
    ensures r.weaponOnKillHeal == m.weaponOnKillHeal && r.daySpeedPenalty == m.daySpeedPenalty
    ensures r.bonusMaxSummons != m.bonusMaxSummons ==> c == Some(Summoner) && r.bonusMaxSummons == m.bonusMaxSummons + 1.0
    ensures c.None? ==> r == m
  {
    if c.None? then m
    else
      match c.value
      case Knight =>
        if choice == 1 then m.(bonusMaxHealth := m.bonusMaxHealth + 20.0)
        else m.(bonusSwordDamage := m.bonusSwordDamage + 15.0)
      case Archer =>
        if choice == 1 then m.(bonusMovementSpeedMult := m.bonusMovementSpeedMult * 1.10)
        else m.(bonusBowAttackSpeedMult := m.bonusBowAttackSpeedMult * 0.90)
      case Scout =>
        if choice == 1 then m.(bonusMaxHealth := m.bonusMaxHealth + 10.0)
        else m.(bonusMeleeDamage := m.bonusMeleeDamage + 15.0)
      case Tank =>
        if choice == 1 then m.(bonusMaxHealth := m.bonusMaxHealth + 50.0)
        else m.(bonusMeleeDamage := m.bonusMeleeDamage + 20.0, bonusMovementSpeedMult := m.bonusMovementSpeedMult * 0.85)
      case Vampire =>
        if choice == 1 then m.(bonusLifesteal := m.bonusLifesteal + 2.5)
        else m.(bonusMovementSpeedMult := m.bonusMovementSpeedMult * 1.15)
      case Necromancer =>
        if choice == 1 then m
        else m.(bonusUndeadHealthMult := m.bonusUndeadHealthMult * 1.20)
      case Summoner =>
        if choice == 1 then m.(bonusMaxSummons := m.bonusMaxSummons + 1.0)
        else m.(bonusSummonHealthMult := m.bonusSummonHealthMult * 1.25)
  }

  /** The necromancer's first perk option: `Math.max(1, (killsToSummon || 5) - 1)`, where a
      requirement of 0 falls back to NECROMANCER_KILLS_TO_SUMMON. */
  function LoweredKillRequirement(k: int): (r: int)
    ensures r >= 1
    ensures k >= 2 ==> r == k - 1
    ensures k == 0 ==> r == NECROMANCER_KILLS_TO_SUMMON - 1
    ensures r <= k || k <= 1
  {
    var current := if k == 0 then NECROMANCER_KILLS_TO_SUMMON else k;
    if current - 1 >= 1 then current - 1 else 1
  }

  // ---------------------------------------------------------------- experience

  /** The experience it takes to climb from level 1 to `level`: the requirements of the levels
      below it, added up. */
  function XPToReach(level: int): (total: int)
    ensures level >= 1 ==> total >= BASE_XP_FOR_LEVEL_2 * (level - 1)
    decreases level
  {
    if level <= 1 then 0 else XPToReach(level - 1) + CalculateXPForNextLevel(level - 1)
  }

  /** Climbing past a level takes at least that level's whole requirement. */
  lemma {:induction false} XPToReachRises(l1: int, l2: int)
    requires 1 <= l1 < l2
    ensures XPToReach(l1) + CalculateXPForNextLevel(l1) <= XPToReach(l2)
    decreases l2
  {
    if l1 < l2 - 1 {
      XPToReachRises(l1, l2 - 1);
    }
  }

  /** Where the level-up loop of gainXP (game.js:444) ends for a level and an experience total:
      it spends whole requirements while it can. */
  function LevelUps(level: int, xp: real): (r: (int, real))
    requires level >= 1 && xp >= 0.0
    decreases xp.Floor
  {
    var need := CalculateXPForNextLevel(level);
    if xp < need as real then (level, xp)
    else
      assert (xp - need as real).Floor == xp.Floor - need;
      LevelUps(level + 1, xp - need as real)
  }

  /** The level-up loop never lowers the level, leaves less than the new level's requirement,
      and keeps the experience banked since level 1 plus the remainder unchanged; it levels up
      at all exactly when the first requirement is met. */
  lemma {:induction false} LevelUpsSound(level: int, xp: real)
    requires level >= 1 && xp >= 0.0
    ensures var r := LevelUps(level, xp);
      && r.0 >= level
      && 0.0 <= r.1 < CalculateXPForNextLevel(r.0) as real
      && XPToReach(r.0) as real + r.1 == XPToReach(level) as real + xp
      && (r.0 > level <==> xp >= CalculateXPForNextLevel(level) as real)
    decreases xp.Floor
  {
    var need := CalculateXPForNextLevel(level);
    if xp >= need as real {
      LevelUpStep(level, xp);
      LevelUpsSound(level + 1, xp - need as real);
    }
  }

  /** One round of the level-up loop: paying the requirement leaves the end point unchanged and
      lowers the whole part of the banked experience. */
  lemma LevelUpStep(level: int, xp: real)
    requires level >= 1 && xp >= CalculateXPForNextLevel(level) as real
    ensures LevelUps(level + 1, xp - CalculateXPForNextLevel(level) as real) == LevelUps(level, xp)
    ensures (xp - CalculateXPForNextLevel(level) as real).Floor < xp.Floor
  {
    var need := CalculateXPForNextLevel(level);
    assert (xp - need as real).Floor == xp.Floor - need;
  }

  /** A total of experience splits into a level and a remainder below that level's requirement
      in one way only. */
  lemma LevelSplitUnique(l1: int, x1: real, l2: int, x2: real)
    requires l1 >= 1 && l2 >= 1
    requires 0.0 <= x1 < CalculateXPForNextLevel(l1) as real
    requires 0.0 <= x2 < CalculateXPForNextLevel(l2) as real
    requires XPToReach(l1) as real + x1 == XPToReach(l2) as real + x2
    ensures l1 == l2 && x1 == x2
  {
    if l1 < l2 {
      XPToReachRises(l1, l2);
    } else if l2 < l1 {
      XPToReachRises(l2, l1);
    }
  }

  /** Where the level-up loop ends depends only on the experience banked since level 1 plus
      the remainder it starts from. */
  lemma LevelUpsDependsOnTotal(l1: int, x1: real, l2: int, x2: real)
    requires l1 >= 1 && x1 >= 0.0 && l2 >= 1 && x2 >= 0.0
    requires XPToReach(l1) as real + x1 == XPToReach(l2) as real + x2
    ensures LevelUps(l1, x1) == LevelUps(l2, x2)
  {
    var p := LevelUps(l1, x1);
    var q := LevelUps(l2, x2);
    LevelUpsSound(l1, x1);
    LevelUpsSound(l2, x2);
    LevelSplitUnique(p.0, p.1, q.0, q.1);
  }

  /** Experience gained in two portions ends at the same level and remainder as the two gained
      at once. */
  lemma GainsCompose(level: int, xp: real, a: real, b: real)
    requires level >= 1 && xp >= 0.0 && a >= 0.0 && b >= 0.0
    ensures var m := LevelUps(level, xp + a);
      m.0 >= 1 && m.1 >= 0.0 && LevelUps(m.0, m.1 + b) == LevelUps(level, xp + a + b)
  {
    var m := LevelUps(level, xp + a);
    LevelUpsSound(level, xp + a);
    LevelUpsDependsOnTotal(m.0, m.1 + b, level, xp + a + b);
  }

  // ---------------------------------------------------------------- the player

  /** A fresh row of `n` empty slots. */
  method EmptySlots(n: nat) returns (a: array<ItemSlot>)
    ensures fresh(a) && a.Length == n && ValidSlots(a[..])
    ensures forall k :: 0 <= k < n ==> a[k].None?
  {
    a := new ItemSlot[n](_ => None);
  }

  /** The hotbar initializeGame hands out: a wooden sword and a wooden pickaxe (game.js:694, 698). */
  method StartingHotbar() returns (a: array<ItemSlot>)
    ensures fresh(a) && ValidSlots(a[..])
    ensures a[..] == [Some(Slot(WoodSword, 1)), Some(Slot(WoodPickaxe, 1)), None, None, None]
  {
    a := new ItemSlot[HOTBAR_SIZE](_ => None);
    a[0] := Some(Slot(WoodSword, 1));
    a[1] := Some(Slot(WoodPickaxe, 1));
    assert a[..] == [Some(Slot(WoodSword, 1)), Some(Slot(WoodPickaxe, 1)), None, None, None];
  }

  /** A stack with one unit taken off, or an empty slot once nothing is left. */
  function TakeOne(s: Slot<Item>): ItemSlot {
    if s.count - 1 <= 0 then None else Some(Slot(s.item, s.count - 1))
  }

  class Player {
    const inventorySlots: array<ItemSlot>
    const hotbarSlots: array<ItemSlot>
    var selectedHotbarSlotIndex: int
    var className: Option<PlayerClass>
    var health: real
    var maxHealth: real
    var level: int
    var currentXP: real
    var xpToNextLevel: int
    var monsterKillCount: int
    var hasChosenLevel3Perk: bool
    var speedMultiplier: real
    var swordMultiplierBoost: real
    var bowMultiplierBoost: real
    var lifesteal: real
    var modifiers: Modifiers

    /** What every operation keeps: the slot arrays have their configured sizes, are distinct and
        hold stacks of 1..MAX_STACK_SIZE; health never exceeds maximum health; the health bonus
        accumulator is spent; experience sits below the current requirement, which is the curve's
        value at the current level. */
    predicate Valid()
      reads this, inventorySlots, hotbarSlots
    {
      && inventorySlots.Length == INVENTORY_SIZE
      && hotbarSlots.Length == HOTBAR_SIZE
      && inventorySlots != hotbarSlots
      && ValidSlots(inventorySlots[..])
      && ValidSlots(hotbarSlots[..])
      && 0 <= selectedHotbarSlotIndex < HOTBAR_SIZE
      && health <= maxHealth
      && modifiers.bonusMaxHealth == 0.0
      && level >= 1
      && xpToNextLevel == CalculateXPForNextLevel(level)
      && 0.0 <= currentXP < xpToNextLevel as real
      && monsterKillCount >= 0
    }

    /** The player as a new game of class `c` leaves it: the class stats of applyClassStats
        (game.js:687-689), full health, level 1 with no experience, no kills, no perk, fresh
        modifiers, an empty inventory and the starting tools (game.js:694-698). */
    predicate AtStart(c: Option<PlayerClass>)
      reads this, inventorySlots, hotbarSlots
    {
      && className == c
      && maxHealth == PLAYER_MAX_HEALTH * StartingStats(c).healthMult
      && speedMultiplier == StartingStats(c).speedMult && lifesteal == StartingStats(c).lifesteal
      && swordMultiplierBoost == StartingStats(c).swordBoost && bowMultiplierBoost == StartingStats(c).bowBoost
      && selectedHotbarSlotIndex == 0
      && health == maxHealth
      && level == 1 && currentXP == 0.0 && xpToNextLevel == BASE_XP_FOR_LEVEL_2
      && monsterKillCount == 0 && !hasChosenLevel3Perk
      && modifiers == FreshModifiers(BasePenalty(c))
      && (forall k :: 0 <= k < inventorySlots.Length ==> inventorySlots[k].None?)
      && hotbarSlots[..] == [Some(Slot(WoodSword, 1)), Some(Slot(WoodPickaxe, 1)), None, None, None]
    }

    /** A player of class `c` at the start of a game: applyClassStats (game.js:687-689) followed by
        the reset of initializeGame and the starting tools (game.js:694-698). */
    constructor(c: Option<PlayerClass>)
      ensures Valid() && AtStart(c)
      ensures fresh(inventorySlots) && fresh(hotbarSlots)
    {
      var inv := EmptySlots(INVENTORY_SIZE);
      var hot := StartingHotbar();
      inventorySlots := inv;
      hotbarSlots := hot;
      selectedHotbarSlotIndex := 0;
      className := c;
      var stats := StartingStats(c);
      speedMultiplier := stats.speedMult;
      swordMultiplierBoost := stats.swordBoost;
      bowMultiplierBoost := stats.bowBoost;
      maxHealth := PLAYER_MAX_HEALTH * stats.healthMult;
      lifesteal := stats.lifesteal;
      health := maxHealth;
      level := 1;
      currentXP := 0.0;
      xpToNextLevel := CalculateXPForNextLevel(1);
      monsterKillCount := 0;
      hasChosenLevel3Perk := false;
      modifiers := FreshModifiers(BasePenalty(c));
      new;
      XPCurveSamples();
    }

    // -------------------------------------------------------------- slot searches

    /** findFirstEmptyInventorySlot (game.js:481). */
    method FindFirstEmptyInventorySlot() returns (idx: int)
      ensures idx == FirstEmpty(inventorySlots[..])
    {
      idx := 0;
      while idx < inventorySlots.Length
        invariant 0 <= idx <= inventorySlots.Length
        invariant forall j :: 0 <= j < idx ==> inventorySlots[j].Some?
      {
        if inventorySlots[idx].None? {
          return;
        }
        idx := idx + 1;
      }
      idx := -1;
    }

    /** findItemStackableInventorySlot (game.js:482). */
    method FindItemStackableInventorySlot(t: Item) returns (idx: int)
      ensures idx == FirstStackable(inventorySlots[..], t)
    {
      idx := 0;
      while idx < inventorySlots.Length
        invariant 0 <= idx <= inventorySlots.Length
        invariant forall j :: 0 <= j < idx ==> !Stackable(inventorySlots[j], t)
      {
        var slot := inventorySlots[idx];
        if slot.Some? && slot.value.item == t && slot.value.count < MAX_STACK_SIZE {
          return;
        }
        idx := idx + 1;
      }
      idx := -1;
    }

    // -------------------------------------------------------------- adding and removing

    /** addToInventory (game.js:484-486): top up stacks of `t`, then fill empty slots, dropping
        what does not fit. The hotbar is not touched. What this means for the totals is
        `Inventory.AddConserves`, `Inventory.AddKeepsOtherItems` and `Inventory.AddTopsUpFirst`. */
    method AddToInventory(t: Item, count: int)
      requires Valid()
      modifies inventorySlots
      ensures Valid()
      ensures inventorySlots[..] == AddSpec(old(inventorySlots[..]), t, count)
      ensures hotbarSlots[..] == old(hotbarSlots[..])
    {
      ghost var start := inventorySlots[..];
      var rem := TopUpStacks(t, count);
      FillEmptySlots(t, rem);
      AddConserves(start, t, count);
    }

    /** The first loop of addToInventory: top up the first non-full stack of `t` while units remain. */
    method TopUpStacks(t: Item, count: int) returns (rem: int)
      requires ValidSlots(inventorySlots[..])
      modifies inventorySlots
      ensures (inventorySlots[..], rem) == TopUp(old(inventorySlots[..]), t, count)
    {
      ghost var start := inventorySlots[..];
      rem := count;
      while rem > 0
        invariant ValidSlots(inventorySlots[..])
        invariant TopUp(inventorySlots[..], t, rem) == TopUp(start, t, count)
        decreases rem
      {
        var idx := FindItemStackableInventorySlot(t);
        if idx == -1 {
          break;
        }
        var c := inventorySlots[idx].value.count;
        var add := Min(rem, MAX_STACK_SIZE - c);
        inventorySlots[idx] := Some(Slot(t, c + add));
        rem := rem - add;
      }
    }

    /** The second loop of addToInventory: put stacks into the first empty slot while units
        remain; when the inventory is full the rest is dropped. */
    method FillEmptySlots(t: Item, count: int)
      modifies inventorySlots
      ensures inventorySlots[..] == FillEmpty(old(inventorySlots[..]), t, count)
    {
      ghost var start := inventorySlots[..];
      var rem := count;
      while rem > 0
        invariant FillEmpty(inventorySlots[..], t, rem) == FillEmpty(start, t, count)
        decreases rem
      {
        var idx := FindFirstEmptyInventorySlot();
        if idx == -1 {
          rem := 0;
          break;
        }
        var add := Min(rem, MAX_STACK_SIZE);
        inventorySlots[idx] := Some(Slot(t, add));
        rem := rem - add;
      }
    }

    /** removeFromInventory (game.js:487-491): drain the inventory from the last slot down, then
        the hotbar the same way if units are still wanted; report whether all were removed. What
        this means is `Inventory.RemoveConserves`, `Inventory.RemoveKeepsOtherItems` and
        `Inventory.RemoveBackToFront`. */
    method RemoveFromInventory(t: Item, count: int) returns (success: bool)
      requires Valid()
      modifies inventorySlots, hotbarSlots
      ensures Valid()
      ensures Removal(inventorySlots[..], hotbarSlots[..], success) == RemoveSpec(old(inventorySlots[..]), old(hotbarSlots[..]), t, count)
    {
      ghost var inv0 := inventorySlots[..];
      ghost var hot0 := hotbarSlots[..];
      var rem := DrainBackwards(inventorySlots, t, count);
      var removed := count - rem;
      if rem > 0 {
        var rem2 := DrainBackwards(hotbarSlots, t, rem);
        removed := removed + (rem - rem2);
      }
      success := removed >= count;
      RemoveConserves(inv0, hot0, t, count);
    }

    /** One of the two backwards loops of removeFromInventory, over either slot array: take
        `min(rem, count)` from each stack of `t`, nulling emptied slots, until nothing is wanted. */
    static method DrainBackwards(a: array<ItemSlot>, t: Item, want: int) returns (rem: int)
      modifies a
      ensures (a[..], rem) == DrainDown(old(a[..]), t, want, a.Length)
    {
      ghost var s0 := a[..];
      rem := want;
      var i := a.Length - 1;
      while i >= 0 && rem > 0
        invariant -1 <= i < a.Length
        invariant DrainDown(a[..], t, rem, i + 1) == DrainDown(s0, t, want, |s0|)
        decreases i
      {
        var slot := a[i];
        if slot.Some? && slot.value.item == t {
          var remSlot := Min(rem, slot.value.count);
          var left := slot.value.count - remSlot;
          rem := rem - remSlot;
          if left <= 0 {
            a[i] := None;
          } else {
            a[i] := Some(Slot(t, left));
          }
        }
        i := i - 1;
      }
    }

    /** getTotalItemCount (game.js:492): the units of `t` in the inventory and the hotbar. It is
        never negative, and it is zero exactly when no slot of either array holds `t`. */
    function GetTotalItemCount(t: Item): (total: int)
      requires Valid()
      reads this, inventorySlots, hotbarSlots
      ensures total >= 0
      ensures total == 0 <==>
        (forall k :: 0 <= k < inventorySlots.Length ==> !Holds(inventorySlots[k], t))
        && (forall k :: 0 <= k < hotbarSlots.Length ==> !Holds(hotbarSlots[k], t))
    {
      CountZeroIffAbsent(inventorySlots[..], t);
      CountZeroIffAbsent(hotbarSlots[..], t);
      Total(inventorySlots[..], hotbarSlots[..], t)
    }

    /** canCraft (game.js:495) on the player's own slots. */
    function CanCraft(recipe: Recipe): (ok: bool)
      requires Valid()
      reads this, inventorySlots, hotbarSlots
      ensures ok <==> forall k :: 0 <= k < |recipe.input| ==> GetTotalItemCount(recipe.input[k].item) >= recipe.input[k].count
    {
      Available(inventorySlots[..], hotbarSlots[..], Needs(recipe.input))
    }

    /** The loop of doCraft (game.js:497) that removes each input in turn and stops at the
        first removal that fails. */
    method RemoveInputs(needs: seq<Slot<Item>>) returns (success: bool)
      requires Valid()
      modifies inventorySlots, hotbarSlots
      ensures Valid()
      ensures Removal(inventorySlots[..], hotbarSlots[..], success) == RemoveAll(old(inventorySlots[..]), old(hotbarSlots[..]), needs)
    {
      ghost var goal := RemoveAll(inventorySlots[..], hotbarSlots[..], needs);
      success := true;
      var i := 0;
      while i < |needs|
        invariant 0 <= i <= |needs|
        invariant Valid()
        invariant RemoveAll(inventorySlots[..], hotbarSlots[..], needs[i..]) == goal
      {
        assert needs[i..][0] == needs[i] && needs[i..][1..] == needs[i + 1..];
        success := RemoveFromInventory(needs[i].item, needs[i].count);
        if !success {
          break;
        }
        i := i + 1;
      }
    }

    /** doCraft (game.js:496-499): look the recipe up, do nothing when it is unknown or cannot be
        afforded, otherwise remove the inputs and, when every removal succeeded, add the output. */
    method DoCraft(table: seq<Recipe>, id: RecipeId)
      requires Valid()
      modifies inventorySlots, hotbarSlots
      ensures Valid()
      ensures Bags(inventorySlots[..], hotbarSlots[..]) == DoCraftSpec(old(inventorySlots[..]), old(hotbarSlots[..]), table, id)
    {
      var found := FindRecipe(table, id);
      if found.None? {
        return;
      }
      var recipe := found.value;
      if !CanCraft(recipe) {
        return;
      }
      var success := RemoveInputs(Needs(recipe.input));
      if success {
        AddToInventory(recipe.output.item, recipe.output.count);
      }
    }

    /** decrementHotbarItem (game.js:630): take one unit from a hotbar slot, nulling it when it
        empties; false for an empty slot or an index outside the hotbar. */
    method DecrementHotbarItem(index: int) returns (ok: bool)
      requires Valid()
      modifies hotbarSlots
      ensures Valid()
      ensures ok <==> 0 <= index < HOTBAR_SIZE && old(hotbarSlots[..])[index].Some?
      ensures !ok ==> hotbarSlots[..] == old(hotbarSlots[..])
      ensures ok ==> hotbarSlots[..] == old(hotbarSlots[..])[index := TakeOne(old(hotbarSlots[index]).value)]
      ensures ok ==> var it := old(hotbarSlots[index]).value.item;
        Count(hotbarSlots[..], it) == Count(old(hotbarSlots[..]), it) - 1
      ensures ok ==> (hotbarSlots[index].None? <==> old(hotbarSlots[index]).value.count == 1)
      ensures inventorySlots[..] == old(inventorySlots[..])
    {
      if index < 0 || index >= hotbarSlots.Length || hotbarSlots[index].None? {
        return false;
      }
      var slot := hotbarSlots[index].value;
      var v := TakeOne(slot);
      SumUpdate(hotbarSlots[..], index, v, slot.item, Units);
      hotbarSlots[index] := v;
      ok := true;
    }

    // -------------------------------------------------------------- health

    /** `player.health = Math.min(player.maxHealth, player.health + amount)`: the heal shared by
        lifesteal, the on-kill heal and the healing salve (game.js:653-655, 659). */
    method Heal(amount: real)
      requires Valid()
      modifies this`health
      ensures Valid()
      ensures health == Geometry.Min(maxHealth, old(health) + amount)
      ensures amount >= 0.0 ==> old(health) <= health <= maxHealth
    {
      health := Geometry.Min(maxHealth, health + amount);
    }

    /** The healing-salve branch of tryInteract (game.js:659): with a salve selected and health
        below maximum, heal HEAL_AMOUNT and use up one salve from the selected slot; otherwise
        nothing changes. Only health and the hotbar are written. */
    method UseHealingSalve() returns (used: bool)
      requires Valid()
      modifies this`health, hotbarSlots
      ensures Valid()
      ensures used <==> Holds(old(hotbarSlots[selectedHotbarSlotIndex]), HealingSalve) && old(health) < old(maxHealth)
      ensures used ==> health == Geometry.Min(maxHealth, old(health) + HEAL_AMOUNT) && health > old(health)
      ensures used ==> Count(hotbarSlots[..], HealingSalve) == Count(old(hotbarSlots[..]), HealingSalve) - 1
      ensures used ==>
        hotbarSlots[..] == old(hotbarSlots[..])[selectedHotbarSlotIndex := TakeOne(old(hotbarSlots[selectedHotbarSlotIndex]).value)]
      ensures !used ==> health == old(health) && hotbarSlots[..] == old(hotbarSlots[..])
      ensures maxHealth == old(maxHealth) && inventorySlots[..] == old(inventorySlots[..])
    {
      var slot := hotbarSlots[selectedHotbarSlotIndex];
      if slot.Some? && slot.value.item == HealingSalve && health < maxHealth {
        Heal(HEAL_AMOUNT);
        var _ := DecrementHotbarItem(selectedHotbarSlotIndex);
        used := true;
      } else {
        used := false;
      }
    }

    // -------------------------------------------------------------- experience and perk

    /** The body of gainXP (game.js:444) once its guards have passed: bank the experience, then
        level up while the banked experience meets the requirement, each time paying the old
        requirement and recomputing it for the new level. */
    method AddExperience(amount: real) returns (leveledUp: bool)
      requires Valid() && amount > 0.0
      modifies this`level, this`currentXP, this`xpToNextLevel
      ensures Valid()
      ensures (level, currentXP) == LevelUps(old(level), old(currentXP) + amount)
      ensures leveledUp <==> level > old(level)
    {
      currentXP := currentXP + amount;
      leveledUp := LevelUpWhileDue();
    }

    /** The `while (currentXP >= xpToNextLevel)` loop of gainXP. */
    method LevelUpWhileDue() returns (leveledUp: bool)
      requires level >= 1 && currentXP >= 0.0 && xpToNextLevel == CalculateXPForNextLevel(level)
      modifies this`level, this`currentXP, this`xpToNextLevel
      ensures (level, currentXP) == LevelUps(old(level), old(currentXP))
      ensures xpToNextLevel == CalculateXPForNextLevel(level)
      ensures level >= old(level) && 0.0 <= currentXP < xpToNextLevel as real
      ensures leveledUp <==> level > old(level)
    {
      leveledUp := false;
      while currentXP >= xpToNextLevel as real
        invariant level >= old(level) && 0.0 <= currentXP
        invariant xpToNextLevel == CalculateXPForNextLevel(level)
        invariant LevelUps(level, currentXP) == LevelUps(old(level), old(currentXP))
        invariant leveledUp <==> level > old(level)
        decreases currentXP.Floor
      {
        LevelUpStep(level, currentXP);
        leveledUp := true;
        level := level + 1;
        currentXP := currentXP - xpToNextLevel as real;
        xpToNextLevel := CalculateXPForNextLevel(level);
      }
    }

    /** The player's side of applyPerkChoice (game.js:449-450): apply the perk of the class, mark
        the perk as chosen, then move the accumulated health bonus into maximum and current
        health alike. */
    method ApplyLevel3Perk(choice: int)
      requires Valid()
      modifies this`modifiers, this`maxHealth, this`health, this`hasChosenLevel3Perk
      ensures Valid()
      ensures var m := PerkModifiers(className, choice, old(modifiers));
        && modifiers == m.(bonusMaxHealth := 0.0)
        && maxHealth == old(maxHealth) + m.bonusMaxHealth
        && health == old(health) + m.bonusMaxHealth
      ensures health - old(health) == maxHealth - old(maxHealth) >= 0.0
      ensures hasChosenLevel3Perk
    {
      var m := PerkModifiers(className, choice, modifiers);
      hasChosenLevel3Perk := true;
      maxHealth := maxHealth + m.bonusMaxHealth;
      health := health + m.bonusMaxHealth;
      modifiers := m.(bonusMaxHealth := 0.0);
    }

    /** applyWeaponEffects (game.js:462-470): reset the weapon fields, apply the choice's effects
        in order, then move the accumulated health bonus into maximum and current health and cap
        health at the new maximum. Only the modifiers, maximum health and health are written. */
    method ApplyWeaponEffects(choice: WeaponChoice)
      requires Valid()
      modifies this`modifiers, this`maxHealth, this`health
      ensures Valid()
      ensures var m := FoldEffects(ResetWeapon(old(modifiers)), choice.effects, BasePenalty(className));
        && modifiers == m.(bonusMaxHealth := 0.0)
        && maxHealth == old(maxHealth) + m.bonusMaxHealth
        && health == Geometry.Min(old(health) + m.bonusMaxHealth, maxHealth)
    {
      var base := BasePenalty(className);
      var es := choice.effects;
      var m := ResetWeapon(modifiers);
      ghost var start := m;
      for i := 0 to |es|
        invariant m == FoldEffects(start, es[..i], base)
      {
        assert es[..i + 1][..i] == es[..i];
        m := ApplyEffect(m, es[i], base);
      }
      assert es[..|es|] == es;
      maxHealth := maxHealth + m.bonusMaxHealth;
      health := health + m.bonusMaxHealth;
      modifiers := m.(bonusMaxHealth := 0.0);
      health := Geometry.Min(health, maxHealth);
    }
  }
}
