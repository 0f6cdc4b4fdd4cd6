/** The game state of game.js (299-313) and the operations on it: gainXP and the level-3 perk,
    the two summon abilities, crafting with the game's own recipe table, and the damage, heal
    and death branch of tryAttack (649-657). The world arrays are kept together as one record
    that the operations reassign, as the source reassigns its arrays after filtering them. */
module Game {
  import opened Wrappers
  import opened Config
  import opened Entities
  import opened Geometry
  import opened Inventory
  import opened Crafting
  import opened Players

  /** `arr.some(o => o.id === id)`. */
  predicate HasId(s: seq<Body>, id: string) {
    exists k :: 0 <= k < |s| && s[k].id == id
  }

  /** Writing one object back into an array keeps the ids the array holds. */
  lemma ReplaceKeepsIds(s: seq<Body>, b: Body, id: string)
    ensures HasId(Replace(s, b), id) == HasId(s, id)
  {
    if HasId(s, id) {
      var k :| 0 <= k < |s| && s[k].id == id;
      assert Replace(s, b)[k].id == id;
    }
    if HasId(Replace(s, b), id) {
      var k :| 0 <= k < |s| && Replace(s, b)[k].id == id;
      assert s[k].id == id;
    }
  }

  // ---------------------------------------------------------------- the world arrays

  /** The arrays of world objects that the modelled operations change. */
  datatype World = World(
    resources: seq<Body>,
    monsters: seq<Body>,
    solidObjects: seq<Body>,
    bosses: seq<Body>,
    walls: seq<Body>,
    undeadMinions: seq<Body>,
    summonedSlimes: seq<Body>)

  /** The arrays a destroyed target is removed from by the `if ... else if` chain of game.js:657. */
  datatype Pool = Monsters | Bosses | Undead | Slimes | Resources

  function PoolOf(w: World, p: Pool): seq<Body> {
    match p
    case Monsters => w.monsters
    case Bosses => w.bosses
    case Undead => w.undeadMinions
    case Slimes => w.summonedSlimes
    case Resources => w.resources
  }

  /** `w` with the pool `p` set to `s`, and `walls` and `solidObjects` set as given. */
  function Rebuilt(w: World, p: Pool, s: seq<Body>, walls: seq<Body>, solidObjects: seq<Body>): (r: World)
    ensures r.walls == walls && r.solidObjects == solidObjects
    ensures forall q :: PoolOf(r, q) == if q == p then s else PoolOf(w, q)
  {
    var v := w.(walls := walls, solidObjects := solidObjects);
    match p
    case Monsters => v.(monsters := s)
    case Bosses => v.(bosses := s)
    case Undead => v.(undeadMinions := s)
    case Slimes => v.(summonedSlimes := s)
    case Resources => v.(resources := s)
  }

  /** `walls.filter(w => w.tier !== tier)` and `solidObjects.filter(s => !(s.isWall && s.tier === tier))`:
      an object without `isWall` has no tier, so both filters drop exactly the walls of the tier. */
  function WithoutWallTier(s: seq<Body>, tier: int): (r: seq<Body>)
    ensures |r| <= |s|
    ensures forall b :: b in r <==> b in s && b.kind != WallKind(tier)
  {
    if s == [] then []
    else (if s[0].kind == WallKind(tier) then [] else [s[0]]) + WithoutWallTier(s[1..], tier)
  }

  /** The filter works element by element, so it keeps the order of what it keeps: filtering a
      concatenation is concatenating the filtered parts. */
  lemma {:induction false} WithoutWallTierSplits(s1: seq<Body>, s2: seq<Body>, tier: int)
    ensures WithoutWallTier(s1 + s2, tier) == WithoutWallTier(s1, tier) + WithoutWallTier(s2, tier)
    decreases |s1|
  {
    if s1 == [] {
      assert s1 + s2 == s2;
    } else {
      assert (s1 + s2)[0] == s1[0];
      assert (s1 + s2)[1..] == s1[1..] + s2;
      WithoutWallTierSplits(s1[1..], s2, tier);
    }
  }

  /** An array holding no wall of the tier comes back unchanged. */
  lemma {:induction false} WithoutWallTierKeepsOthers(s: seq<Body>, tier: int)
    requires forall k :: 0 <= k < |s| ==> s[k].kind != WallKind(tier)
    ensures WithoutWallTier(s, tier) == s
    decreases |s|
  {
    if s != [] {
      WithoutWallTierKeepsOthers(s[1..], tier);
    }
  }

  /** `bestTarget.health -= damage`: the target is one object shared by every array holding it,
      so each array sees the new health. Walls are never attack targets. */
  function Struck(w: World, hit: Body): (r: World)
    ensures r.walls == w.walls
    ensures forall p :: |PoolOf(r, p)| == |PoolOf(w, p)|
    ensures |r.solidObjects| == |w.solidObjects|
  {
    w.(resources := Replace(w.resources, hit), monsters := Replace(w.monsters, hit),
       solidObjects := Replace(w.solidObjects, hit), bosses := Replace(w.bosses, hit),
       undeadMinions := Replace(w.undeadMinions, hit), summonedSlimes := Replace(w.summonedSlimes, hit))
  }

  /** The removals after a kill (game.js:656-657): the walls of a freed tier from `walls` and
      `solidObjects`, then the target from `solidObjects` when it is solid, and from its pool. */
  function Cleared(w: World, hit: Body, tier: Option<int>, pool: Pool): (r: World)
    ensures !HasId(PoolOf(r, pool), hit.id)
    ensures |PoolOf(r, pool)| <= |PoolOf(w, pool)|
    ensures forall p :: p != pool ==> PoolOf(r, p) == PoolOf(w, p)
    ensures r.walls == if tier.Some? then WithoutWallTier(w.walls, tier.value) else w.walls
    ensures forall b :: b in r.solidObjects <==>
      && b in w.solidObjects
      && (tier.Some? ==> b.kind != WallKind(tier.value))
      && (hit.isSolid ==> b.id != hit.id)
  {
    var walls := if tier.Some? then WithoutWallTier(w.walls, tier.value) else w.walls;
    var solid := if tier.Some? then WithoutWallTier(w.solidObjects, tier.value) else w.solidObjects;
    Rebuilt(w, pool, WithoutId(PoolOf(w, pool), hit.id), walls, if hit.isSolid then WithoutId(solid, hit.id) else solid)
  }

  /** A kill's removals only take objects away, so a sight line they leave blocked was blocked
      before, whether tested against `walls` or against `solidObjects`. */
  lemma ClearingNeverBlocksSight(w: World, hit: Body, tier: Option<int>, pool: Pool, p1: Point, p2: Point)
    ensures IsLineObstructed(p1, p2, Cleared(w, hit, tier, pool).walls) ==> IsLineObstructed(p1, p2, w.walls)
    ensures IsLineObstructed(p1, p2, Cleared(w, hit, tier, pool).solidObjects) ==> IsLineObstructed(p1, p2, w.solidObjects)
  {
    var r := Cleared(w, hit, tier, pool);
    FewerWallsObstructLess(p1, p2, r.walls, w.walls);
    FewerWallsObstructLess(p1, p2, r.solidObjects, w.solidObjects);
  }

  // ---------------------------------------------------------------- melee damage

  /** The target flags tryAttack computes before choosing the damage (game.js:649). */
  datatype Target = Target(
    isEnemy: bool, isMonster: bool,
    isTree: bool, isRock: bool, isCactus: bool, isBone: bool,
    isPlaced: bool, isUndead: bool, isSummon: bool)
  {
    /** What a sword is for: an enemy, an undead minion or a summoned slime. */
    predicate Fighter() { isEnemy || isUndead || isSummon }
    /** A resource or a structure, which bare hands barely dent. */
    predicate Gatherable() { isRock || isPlaced || isTree || isBone || isCactus }
  }

  /** The flags of a target of kind `kind` that the monsters array holds or not, and the bosses
      array holds or not. */
  function Classify(kind: Kind, inMonsters: bool, inBosses: bool): Target {
    Target(inMonsters || inBosses, inMonsters,
      kind.IsItem(Tree), kind.IsItem(Rock), kind.IsItem(Cactus), kind.IsItem(BoneTree),
      kind.PlacedKind?, kind.UndeadKind?, kind.SlimeKind?)
  }

  /** The equipped item's tool entry; `None` for an empty slot or an item that is not a tool,
      which tryAttack treats as bare hands. */
  function Equipped(slot: ItemSlot): Option<ToolInfo> {
    if slot.Some? then ToolOf(slot.value.item) else None
  }

  /** A tool whose melee formula has the multiplier it reads. The bow is excluded: tryAttack
      shoots with it and returns before the melee branch. */
  predicate Swingable(tool: Option<ToolInfo>) {
    tool.Some? ==>
      && tool.value.toolType != Bow
      && (tool.value.toolType == Sword ==> tool.value.damageMultiplier.Some?)
      && (tool.value.toolType in {Axe, Pickaxe} ==> tool.value.gatherMultiplier.Some?)
  }

  /** Every tool of ITEM_DATA except the bows has the multiplier its formula reads. */
  lemma ToolsSwingable(slot: ItemSlot)
    requires !(Equipped(slot).Some? && Equipped(slot).value.toolType == Bow)
    ensures Swingable(Equipped(slot))
  {
  }

  /** An axe on a tree, bone tree or cactus, or a pickaxe on a rock. */
  predicate Matched(d: ToolInfo, t: Target) {
    || (d.toolType == Axe && (t.isTree || t.isBone || t.isCactus))
    || (d.toolType == Pickaxe && t.isRock)
  }

  /** The damage table of tryAttack (game.js:649-652). */
  function MeleeDamage(tool: Option<ToolInfo>, t: Target, swordBoost: real, m: Modifiers): (damage: real)
    requires Swingable(tool)
    ensures t.Gatherable() && tool.None? ==> damage == BASE_GATHER_POWER / 3.0
    ensures !t.Gatherable() && tool.None? ==>
      damage == ((if t.Fighter() then BASE_ATTACK_POWER else BASE_GATHER_POWER) + m.bonusMeleeDamage) * m.weaponDamageMult
    ensures tool.Some? && t.Fighter() && tool.value.toolType == Sword ==>
      damage == (BASE_ATTACK_POWER * tool.value.damageMultiplier.value * swordBoost + m.bonusSwordDamage + m.bonusMeleeDamage) * m.weaponDamageMult
    ensures tool.Some? && !(t.Fighter() && tool.value.toolType == Sword) ==>
      damage == if Matched(tool.value, t) then BASE_GATHER_POWER * tool.value.gatherMultiplier.value
                else if t.isPlaced && tool.value.toolType in {Axe, Pickaxe} then BASE_GATHER_POWER * 2.0
                else BASE_ATTACK_POWER / 2.0
    ensures tool.Some? && !t.Fighter() && !t.isPlaced ==>
      damage == if Matched(tool.value, t) then BASE_GATHER_POWER * tool.value.gatherMultiplier.value else BASE_ATTACK_POWER / 2.0
  {
    if tool.Some? then
      var d := tool.value;
      if t.Fighter() && d.toolType == Sword then
        (BASE_ATTACK_POWER * d.damageMultiplier.value * swordBoost + m.bonusSwordDamage + m.bonusMeleeDamage) * m.weaponDamageMult
      else if (t.isTree || t.isBone) && d.toolType == Axe then BASE_GATHER_POWER * d.gatherMultiplier.value
      else if t.isRock && d.toolType == Pickaxe then BASE_GATHER_POWER * d.gatherMultiplier.value
      else if t.isCactus && d.toolType == Axe then BASE_GATHER_POWER * d.gatherMultiplier.value
      else if t.isPlaced && (d.toolType == Axe || d.toolType == Pickaxe) then BASE_GATHER_POWER * 2.0
      else BASE_ATTACK_POWER / 2.0
    else if t.Gatherable() then BASE_GATHER_POWER / 3.0
    else ((if t.Fighter() then BASE_ATTACK_POWER else BASE_GATHER_POWER) + m.bonusMeleeDamage) * m.weaponDamageMult
  }

  /** Every axe and pickaxe of ITEM_DATA gathers with a multiplier of at least 3. */
  lemma GatherMultipliersAtLeastThree(i: Item)
    requires ToolOf(i).Some? && ToolOf(i).value.toolType in {Axe, Pickaxe}
    ensures ToolOf(i).value.gatherMultiplier.Some? && ToolOf(i).value.gatherMultiplier.value >= 3.0
  {
  }

  /** The right gathering tool deals BASE_GATHER_POWER times its multiplier, at least 9, which
      beats both a wrong tool (2.5) and bare hands on a resource (1). */
  lemma MatchedToolBeatsTheRest(i: Item, t: Target, swordBoost: real, m: Modifiers)
    requires ToolOf(i).Some? && Matched(ToolOf(i).value, t)
    ensures var d := ToolOf(i).value;
      && MeleeDamage(ToolOf(i), t, swordBoost, m) == BASE_GATHER_POWER * d.gatherMultiplier.value
      && MeleeDamage(ToolOf(i), t, swordBoost, m) >= 9.0
      && MeleeDamage(ToolOf(i), t, swordBoost, m) > BASE_ATTACK_POWER / 2.0 > BASE_GATHER_POWER / 3.0
  {
    GatherMultipliersAtLeastThree(i);
  }

  /** Against a fighter, any sword with a non-negative sword bonus and weapon multiplier hits at
      least as hard as bare hands. */
  lemma SwordBeatsBareHands(i: Item, t: Target, swordBoost: real, m: Modifiers)
    requires ToolOf(i).Some? && ToolOf(i).value.toolType == Sword && t.Fighter()
    requires !t.Gatherable()
    requires swordBoost >= 1.0 && m.bonusSwordDamage >= 0.0 && m.weaponDamageMult >= 0.0
    ensures MeleeDamage(ToolOf(i), t, swordBoost, m) >= MeleeDamage(None, t, swordBoost, m)
  {
    var dm := ToolOf(i).value.damageMultiplier.value;
    assert dm >= 2.0;
    assert dm * swordBoost >= 2.0 * swordBoost;
    var sword := BASE_ATTACK_POWER * dm * swordBoost + m.bonusSwordDamage + m.bonusMeleeDamage;
    var hands := BASE_ATTACK_POWER + m.bonusMeleeDamage;
    assert sword >= hands;
    assert (sword - hands) * m.weaponDamageMult >= 0.0;
  }

  // ---------------------------------------------------------------- death and drops

  /** Which branch of the drop chain of game.js:656 a destroyed target takes. */
  datatype Reward =
    | TreeLoot | RockLoot | CactusLoot | BoneLoot | MonsterLoot
    | PlainsBossLoot | WolfLoot | JungleLoot | PlacedLoot(item: Item) | NoLoot

  /** A resource of the four natural kinds, tested first by the drop chain. */
  predicate Natural(kind: Kind) {
    kind.IsItem(Tree) || kind.IsItem(Rock) || kind.IsItem(Cactus) || kind.IsItem(BoneTree)
  }

  /** The drop chain AS WRITTEN, for a target of kind `kind` that the monsters array holds or
      not: after the monster test it reads `targetIsBoss`, which tryAttack never declares, so
      evaluation throws a ReferenceError there; `None` marks that. */
  function RewardAsWritten(kind: Kind, inMonsters: bool): (r: Option<Reward>)
    ensures r.None? <==> !Natural(kind) && !inMonsters
  {
    if kind.IsItem(Tree) then Some(TreeLoot)
    else if kind.IsItem(Rock) then Some(RockLoot)
    else if kind.IsItem(Cactus) then Some(CactusLoot)
    else if kind.IsItem(BoneTree) then Some(BoneLoot)
    else if inMonsters then Some(MonsterLoot)
    else None
  }

  /** The drop chain with `targetIsBoss` read as "the bosses array holds the target", the test
      its sibling `targetIsMonster` makes of the monsters array. */
  function RewardOf(kind: Kind, inMonsters: bool, inBosses: bool): (r: Reward)
    ensures r == PlainsBossLoot <==> kind == BossKind(PlainsBoss) && inBosses && !inMonsters
    ensures r == WolfLoot <==> kind == BossKind(ForestWolf) && inBosses && !inMonsters
    ensures r == MonsterLoot <==> !Natural(kind) && inMonsters
    ensures r.PlacedLoot? <==> kind.PlacedKind? && !Natural(kind) && !inMonsters
    ensures r.PlacedLoot? ==> kind == PlacedKind(r.item)
  {
    if kind.IsItem(Tree) then TreeLoot
    else if kind.IsItem(Rock) then RockLoot
    else if kind.IsItem(Cactus) then CactusLoot
    else if kind.IsItem(BoneTree) then BoneLoot
    else if inMonsters then MonsterLoot
    else if inBosses && kind == BossKind(PlainsBoss) then PlainsBossLoot
    else if inBosses && kind == BossKind(ForestWolf) then WolfLoot
    else if inBosses && kind == BossKind(JungleBoss) then JungleLoot
    else if kind.PlacedKind? then PlacedLoot(kind.item)
    else NoLoot
  }

  /** The removal chain AS WRITTEN: `if (targetIsMonster) ... else if (targetIsBoss)`, so every
      target other than a monster reaches the undeclared name and throws; `None` marks that. */
  function RemovalAsWritten(inMonsters: bool): (r: Option<Pool>)
    ensures r.Some? <==> inMonsters
  {
    if inMonsters then Some(Monsters) else None
  }

  /** The removal chain with `targetIsBoss` corrected as in RewardOf. */
  function RemovalPool(kind: Kind, inMonsters: bool, inBosses: bool): (p: Pool)
    ensures p == Monsters <==> inMonsters
    ensures p == Bosses <==> !inMonsters && inBosses
    ensures p == Resources ==> !kind.UndeadKind? && !kind.SlimeKind?
  {
    if inMonsters then Monsters
    else if inBosses then Bosses
    else if kind.UndeadKind? then Undead
    else if kind.SlimeKind? then Slimes
    else Resources
  }

  /** Where the code as written does not throw, it agrees with the corrected chains. */
  lemma AsWrittenAgreesWhereItRuns(kind: Kind, inMonsters: bool, inBosses: bool)
    ensures RewardAsWritten(kind, inMonsters).Some? ==> RewardAsWritten(kind, inMonsters).value == RewardOf(kind, inMonsters, inBosses)
    ensures RemovalAsWritten(inMonsters).Some? ==> RemovalAsWritten(inMonsters).value == RemovalPool(kind, inMonsters, inBosses)
  {
  }

  /** A plains boss killed in the bosses array: the code as written throws before its loot, its
      experience and the removal of the tier-1 walls; the corrected chain reaches them. */
  lemma PlainsBossKillThrowsAsWritten(b: Body, monsters: seq<Body>, bosses: seq<Body>)
    requires b.kind == BossKind(PlainsBoss) && HasId(bosses, b.id) && !HasId(monsters, b.id)
    ensures RewardAsWritten(b.kind, HasId(monsters, b.id)) == None
    ensures RewardOf(b.kind, HasId(monsters, b.id), HasId(bosses, b.id)) == PlainsBossLoot
    ensures FreedTier(RewardOf(b.kind, HasId(monsters, b.id), HasId(bosses, b.id))) == Some(1)
  {
    OnlyPlainsBossUnlocksWalls(PlainsBoss);
  }

  /** A felled tree held by neither the monsters nor the bosses array: the code as written
      hands out its wood, then throws in the removal chain, so the tree stays in `resources`;
      the corrected chain removes it from there. */
  lemma TreeKillThrowsAsWritten(b: Body, monsters: seq<Body>, bosses: seq<Body>)
    requires b.kind == ResourceKind(Tree) && !HasId(monsters, b.id) && !HasId(bosses, b.id)
    ensures RewardAsWritten(b.kind, HasId(monsters, b.id)) == Some(TreeLoot)
    ensures RemovalAsWritten(HasId(monsters, b.id)) == None
    ensures RemovalPool(b.kind, HasId(monsters, b.id), HasId(bosses, b.id)) == Resources
  {
  }

  /** The wall tier a kill frees: BOSS_WALL_TIER_MAP of the boss type, read in the plains-boss
      branch only. */
  function FreedTier(r: Reward): (tier: Option<int>)
    ensures tier.Some? <==> r == PlainsBossLoot
  {
    OnlyPlainsBossUnlocksWalls(PlainsBoss);
    if r == PlainsBossLoot then BossWallTier(PlainsBoss) else None
  }

  /** The experience each branch awards through gainXP. */
  function XPReward(r: Reward): (xp: real)
    ensures xp >= 0.0
    ensures xp > 0.0 <==> r in {MonsterLoot, PlainsBossLoot, WolfLoot, JungleLoot}
  {
    match r
    case MonsterLoot => MONSTER_XP_REWARD
    case PlainsBossLoot => PLAINS_BOSS_XP_REWARD
    case WolfLoot => PLAINS_BOSS_XP_REWARD * 0.75
    case JungleLoot => PLAINS_BOSS_XP_REWARD * 1.5
    case _ => 0.0
  }

  /** The `Math.random()` draws of a drop branch, in the order the branch makes them. */
  datatype Rolls = Rolls(first: real, second: real, third: real)

  predicate ValidRolls(r: Rolls) {
    0.0 <= r.first < 1.0 && 0.0 <= r.second < 1.0 && 0.0 <= r.third < 1.0
  }

  /** The drops of a branch (game.js:656), in the order they are pushed. */
  function Drops(reward: Reward, r: Rolls): (drops: seq<Stack>)
    requires ValidRolls(r)
    ensures forall k :: 0 <= k < |drops| ==> 1 <= drops[k].count <= 25
    ensures drops == [] <==> reward in {JungleLoot, NoLoot}
    ensures reward == TreeLoot ==>
      && drops[0].item == Wood && drops[0].count <= 3
      && (|drops| == 1 || drops[1..] == [Stack(PlantFiber, 1)])
    ensures reward == RockLoot ==> |drops| == 1 && drops[0].item == Stone && drops[0].count <= 2
    ensures reward == CactusLoot ==> |drops| == 1 && drops[0].item == PlantFiber && drops[0].count <= 2
    ensures reward == BoneLoot ==>
      && drops[0].item == Dust && drops[0].count <= 3
      && (|drops| == 1 || drops[1..] == [Stack(BoneScythe, 1)])
    ensures reward == MonsterLoot ==>
      && drops[0].item == MonsterGoop && drops[0].count <= 4
      && 1 <= |drops| <= 3
      && (forall k :: 1 <= k < |drops| ==> drops[k] in {Stack(GoldCoin, 1), Stack(HealingSalve, 1)})
    ensures reward == PlainsBossLoot ==>
      && |drops| >= 3
      && drops[0].item == GoldCoin && 10 <= drops[0].count <= 25
      && drops[1].item == Stone && 5 <= drops[1].count <= 15
      && drops[2] == Stack(IronOre, 15)
      && (|drops| == 3 || drops[3..] == [Stack(HealingSalve, 2)])
    ensures reward == WolfLoot ==> drops == [Stack(MysticalOrb, 1)]
    ensures reward.PlacedLoot? ==> drops == [Stack(reward.item, 1)]
  {
    match reward
    case TreeLoot =>
      [Stack(Wood, 1 + (r.first * 3.0).Floor)] + (if r.second < 0.2 then [Stack(PlantFiber, 1)] else [])
    case RockLoot => [Stack(Stone, 1 + (r.first * 2.0).Floor)]
    case CactusLoot => [Stack(PlantFiber, 1 + (r.first * 2.0).Floor)]
    case BoneLoot =>
      [Stack(Dust, 1 + (r.first * 3.0).Floor)] + (if r.second < 0.02 then [Stack(BoneScythe, 1)] else [])
    case MonsterLoot =>
      [Stack(MonsterGoop, 1 + (r.first * 4.0).Floor)]
        + (if r.second < GOLD_COIN_DROP_CHANCE then [Stack(GoldCoin, 1)] else [])
        + (if r.third < 0.02 then [Stack(HealingSalve, 1)] else [])
    case PlainsBossLoot =>
      [Stack(GoldCoin, 10 + (r.first * 16.0).Floor), Stack(Stone, 5 + (r.second * 11.0).Floor), Stack(IronOre, 15)]
        + (if r.third < 0.1 then [Stack(HealingSalve, 2)] else [])
    case WolfLoot => [Stack(MysticalOrb, 1)]
    case JungleLoot => []
    case PlacedLoot(i) => [Stack(i, 1)]
    case NoLoot => []
  }

  // ---------------------------------------------------------------- experience and menus

  /** A level-up that ends on level 3 without the perk chosen opens the perk menu; one that ends
      on level 5 without a pet opens the pet menu; each pauses the game. */
  predicate MenuPauses(oldLevel: int, newLevel: int, perkChosen: bool, hasPet: bool) {
    newLevel > oldLevel && ((newLevel == 3 && !perkChosen) || (newLevel == 5 && !hasPet))
  }

  // ---------------------------------------------------------------- summons

  /** spawnSummonedSlime (game.js:674): 100 health scaled by the summon health bonus, damage
      scaled by the summon damage bonus, not solid. */
  function SlimeBody(id: string, x: real, y: real, m: Modifiers): Body {
    Body(id, SlimeKind, x, y, 0.0, 0.0, Some(SUMMONED_SLIME_RADIUS), false,
      Some(100.0 * SUMMONED_SLIME_HEALTH_MULT * m.bonusSummonHealthMult),
      Some(SUMMONED_SLIME_DAMAGE * m.bonusSummonDamageMult))
  }

  /** spawnUndeadMinion (game.js:681): 100 health scaled by UNDEAD_BASE_HEALTH_MULT and the
      undead health bonus, fixed damage, not solid. */
  function UndeadBody(id: string, x: real, y: real, m: Modifiers): Body {
    Body(id, UndeadKind, x, y, 0.0, 0.0, Some(UNDEAD_RADIUS), false,
      Some(100.0 * UNDEAD_BASE_HEALTH_MULT * m.bonusUndeadHealthMult), Some(UNDEAD_DAMAGE))
  }

  /** `Array.prototype.shift`: drops the first element; an empty array stays empty. */
  function Shifted(s: seq<Body>): (r: seq<Body>)
    ensures |r| == if s == [] then 0 else |s| - 1
    ensures forall k :: 0 <= k < |r| ==> r[k] == s[k + 1]
  {
    if s == [] then [] else s[1..]
  }

  /** The slime pool after a summon: the oldest slime leaves when the pool is at the cap, and
      the new one joins at the end. */
  function SummonedPool(pool: seq<Body>, cap: real, slime: Body): (r: seq<Body>)
    ensures |r| >= 1 && r[|r| - 1] == slime
    ensures |pool| as real >= cap ==> r[..|r| - 1] == Shifted(pool)
    ensures |pool| as real < cap ==> r[..|r| - 1] == pool
  {
    (if |pool| as real >= cap then Shifted(pool) else pool) + [slime]
  }

  /** A pool at or under a whole-number cap of at least one stays at or under it. */
  lemma SummonKeepsCap(pool: seq<Body>, cap: real, slime: Body)
    requires cap >= 1.0 && cap.Floor as real == cap && |pool| as real <= cap
    ensures |SummonedPool(pool, cap, slime)| as real <= cap
  {
    var n := |pool|;
    var c := cap.Floor;
    if n as real >= cap {
      assert n == c && n >= 1;
      assert |SummonedPool(pool, cap, slime)| == n;
    } else {
      assert n < c;
      assert |SummonedPool(pool, cap, slime)| == n + 1;
    }
  }

  // ---------------------------------------------------------------- the game

  /** The pause flag, wolf flag, kill count, level and experience of a game. */
  datatype Tally = Tally(paused: bool, wolfDefeated: bool, kills: int, level: int, xp: real)

  class GameState {
    const player: Player
    var world: World
    var gameHasStarted: bool
    var gamePaused: bool
    var isGameOver: bool
    var forestWolfDefeated: bool
    /** Whether `player.pet` is set; pets themselves are not part of this model. */
    var hasPet: bool
    /** `CLASS_DATA.necromancer.killsToSummon`, which the necromancer's perk lowers in place. */
    var necromancerKillsToSummon: int

    /** The player is valid, the kill requirement is positive, and the undead cap holds. */
    predicate Valid()
      reads this`world, this`necromancerKillsToSummon, player, player.inventorySlots, player.hotbarSlots
    {
      && player.Valid()
      && necromancerKillsToSummon >= 1
      && |world.undeadMinions| <= MAX_UNDEAD_MINIONS
    }

    /** initializeGame (game.js:692-699) for a player of class `c`: empty minion pools, the
        spawned world objects as given, and the game started and unpaused. */
    constructor(c: Option<PlayerClass>, resources: seq<Body>, monsters: seq<Body>, solidObjects: seq<Body>,
                bosses: seq<Body>, walls: seq<Body>)
      ensures Valid() && fresh(player) && fresh(player.inventorySlots) && fresh(player.hotbarSlots)
      ensures player.AtStart(c)
      ensures world == World(resources, monsters, solidObjects, bosses, walls, [], [])
      ensures gameHasStarted && !gamePaused && !isGameOver && !forestWolfDefeated && !hasPet
      ensures necromancerKillsToSummon == NECROMANCER_KILLS_TO_SUMMON
    {
      player := new Player(c);
      world := World(resources, monsters, solidObjects, bosses, walls, [], []);
      gameHasStarted := true;
      gamePaused := false;
      isGameOver := false;
      forestWolfDefeated := false;
      hasPet := false;
      necromancerKillsToSummon := NECROMANCER_KILLS_TO_SUMMON;
    }

    /** gainXP (game.js:444): nothing happens after game over, before the start or for a
        non-positive amount; otherwise the player levels up while due, and a level-up ending on
        level 3 or 5 opens the perk or pet menu, which pauses the game. */
    method GainXP(amount: real)
      requires Valid()
      modifies this`gamePaused, player`level, player`currentXP, player`xpToNextLevel
      ensures Valid()
      ensures if isGameOver || amount <= 0.0 || !gameHasStarted
        then player.level == old(player.level) && player.currentXP == old(player.currentXP)
        else (player.level, player.currentXP) == LevelUps(old(player.level), old(player.currentXP) + amount)
      ensures gamePaused == (old(gamePaused) || MenuPauses(old(player.level), player.level, player.hasChosenLevel3Perk, hasPet))
    {
      if isGameOver || amount <= 0.0 || !gameHasStarted {
        return;
      }
      var leveledUp := player.AddExperience(amount);
      OpenLevelMenus(leveledUp);
    }

    /** The menus gainXP opens after a level-up: the perk menu on reaching level 3 without a
        perk, the pet menu on reaching level 5 without a pet; either pauses the game. */
    method OpenLevelMenus(leveledUp: bool)
      modifies this`gamePaused
      ensures gamePaused == (old(gamePaused) || (leveledUp &&
        ((player.level == 3 && !player.hasChosenLevel3Perk) || (player.level == 5 && !hasPet))))
    {
      if leveledUp && player.level == 3 && !player.hasChosenLevel3Perk {
        gamePaused := true;
      }
      if leveledUp && player.level == 5 && !hasPet && !gamePaused {
        gamePaused := true;
      }
    }

    /** applyPerkChoice (game.js:449-450): a no-op once the perk is chosen or before the start;
        otherwise the class's perk, the kill requirement lowered for the necromancer's first
        option, the perk marked chosen, the game unpaused and the health bonus paid into maximum
        and current health alike. */
    method ApplyPerkChoice(choice: int)
      requires Valid()
      modifies this`gamePaused, this`necromancerKillsToSummon
      modifies player`modifiers, player`maxHealth, player`health, player`hasChosenLevel3Perk
      ensures Valid()
      ensures old(player.hasChosenLevel3Perk) || !gameHasStarted ==>
        && gamePaused == old(gamePaused) && necromancerKillsToSummon == old(necromancerKillsToSummon)
        && player.modifiers == old(player.modifiers) && player.maxHealth == old(player.maxHealth)
        && player.health == old(player.health) && player.hasChosenLevel3Perk == old(player.hasChosenLevel3Perk)
      ensures !old(player.hasChosenLevel3Perk) && gameHasStarted ==>
        && player.hasChosenLevel3Perk && !gamePaused
        && necromancerKillsToSummon == (if player.className == Some(Necromancer) && choice == 1
             then LoweredKillRequirement(old(necromancerKillsToSummon)) else old(necromancerKillsToSummon))
        && var m := PerkModifiers(player.className, choice, old(player.modifiers));
           && player.modifiers == m.(bonusMaxHealth := 0.0)
           && player.maxHealth == old(player.maxHealth) + m.bonusMaxHealth
           && player.health == old(player.health) + m.bonusMaxHealth
    {
      if player.hasChosenLevel3Perk || !gameHasStarted {
        return;
      }
      if player.className == Some(Necromancer) && choice == 1 {
        necromancerKillsToSummon := LoweredKillRequirement(necromancerKillsToSummon);
      }
      player.ApplyLevel3Perk(choice);
      gamePaused := false;
    }

    /** trySummonSlime and spawnSummonedSlime (game.js:672-674) with the spawn point and the new
        id given: only a summoner in a running, unpaused game summons; at the cap of
        MAX_SUMMONED_SLIMES plus the bonus the oldest slime is removed first. */
    method TrySummonSlime(id: string, x: real, y: real)
      requires Valid()
      modifies this`world
      ensures Valid()
      ensures var cap := MAX_SUMMONED_SLIMES as real + player.modifiers.bonusMaxSummons;
        world == old(world).(summonedSlimes :=
          if !gameHasStarted || gamePaused || player.className != Some(Summoner) then old(world.summonedSlimes)
          else SummonedPool(old(world.summonedSlimes), cap, SlimeBody(id, x, y, player.modifiers)))
    {
      if !gameHasStarted || gamePaused || player.className != Some(Summoner) {
        return;
      }
      var cap := MAX_SUMMONED_SLIMES as real + player.modifiers.bonusMaxSummons;
      var pool := world.summonedSlimes;
      if |pool| as real >= cap {
        pool := Shifted(pool);
      }
      world := world.(summonedSlimes := pool + [SlimeBody(id, x, y, player.modifiers)]);
    }

    /** trySummonUndead and spawnUndeadMinion (game.js:678-681) with the final position (the
        spawn point plus its random jitter) and the new id given: a necromancer in a running,
        unpaused game with enough kills and fewer than MAX_UNDEAD_MINIONS undead summons one and
        pays the kills. */
    method TrySummonUndead(id: string, x: real, y: real)
      requires Valid()
      modifies this`world, player`monsterKillCount
      ensures Valid()
      ensures var due := && gameHasStarted && !gamePaused && player.className == Some(Necromancer)
                         && old(player.monsterKillCount) >= necromancerKillsToSummon
                         && |old(world.undeadMinions)| < MAX_UNDEAD_MINIONS;
        && world == old(world).(undeadMinions :=
             if due then old(world.undeadMinions) + [UndeadBody(id, x, y, player.modifiers)] else old(world.undeadMinions))
        && player.monsterKillCount == old(player.monsterKillCount) - (if due then necromancerKillsToSummon else 0)
    {
      if !gameHasStarted || gamePaused || player.className != Some(Necromancer) {
        return;
      }
      var killsNeeded := necromancerKillsToSummon;
      if player.monsterKillCount >= killsNeeded && |world.undeadMinions| < MAX_UNDEAD_MINIONS {
        world := world.(undeadMinions := world.undeadMinions + [UndeadBody(id, x, y, player.modifiers)]);
        player.monsterKillCount := player.monsterKillCount - killsNeeded;
      }
    }

    /** doCraft with the recipe table game.js itself searches (game.js:338-356, 496-499). */
    method Craft(id: RecipeId)
      requires Valid()
      modifies player.inventorySlots, player.hotbarSlots
      ensures Valid()
      ensures Bags(player.inventorySlots[..], player.hotbarSlots[..])
        == DoCraftSpec(old(player.inventorySlots[..]), old(player.hotbarSlots[..]), GAME_RECIPES, id)
    {
      player.DoCraft(GAME_RECIPES, id);
    }

    /** The lifesteal and on-kill heals of a hit on an enemy (game.js:653-655): lifesteal while
        the target survives, the weapon's on-kill heal when it dies, each capped at maximum
        health. */
    method HealAfterHit(t: Target, targetHealth: real)
      requires Valid()
      modifies player`health
      ensures Valid()
      ensures var steal := player.lifesteal + player.modifiers.bonusLifesteal;
        var onKill := player.modifiers.weaponOnKillHeal;
        player.health ==
          if t.isEnemy && steal > 0.0 && targetHealth > 0.0 then Geometry.Min(player.maxHealth, old(player.health) + steal)
          else if t.isEnemy && onKill > 0.0 && targetHealth <= 0.0 then Geometry.Min(player.maxHealth, old(player.health) + onKill)
          else old(player.health)
      ensures player.health >= old(player.health)
    {
      var steal := player.lifesteal + player.modifiers.bonusLifesteal;
      if t.isEnemy && steal > 0.0 && targetHealth > 0.0 {
        player.health := Geometry.Min(player.maxHealth, player.health + steal);
      }
      if t.isEnemy && player.modifiers.weaponOnKillHeal > 0.0 && targetHealth <= 0.0 {
        player.health := Geometry.Min(player.maxHealth, player.health + player.modifiers.weaponOnKillHeal);
      }
    }

    /** The fields a kill's bookkeeping changes. */
    function Counters(): Tally
      reads this`gamePaused, this`forestWolfDefeated
      reads player`monsterKillCount, player`level, player`currentXP
    {
      Tally(gamePaused, forestWolfDefeated, player.monsterKillCount, player.level, player.currentXP)
    }

    /** The state a kill whose drop branch is `reward` leaves behind, against the counters
        `before` it: the wolf flag set by the wolf's branch, the necromancer's kill count raised
        by one for a monster, and the branch's experience gained as GainXP gains it. */
    predicate Credited(before: Tally, reward: Reward, inMonsters: bool)
      requires before.level >= 1 && before.xp >= 0.0
      reads this`gamePaused, this`forestWolfDefeated, this`isGameOver, this`gameHasStarted, this`hasPet
      reads player`monsterKillCount, player`level, player`currentXP, player`className, player`hasChosenLevel3Perk
    {
      && gamePaused == (before.paused || MenuPauses(before.level, player.level, player.hasChosenLevel3Perk, hasPet))
      && forestWolfDefeated == (before.wolfDefeated || reward == WolfLoot)
      && player.monsterKillCount == before.kills
           + (if inMonsters && player.className == Some(Necromancer) then 1 else 0)
      && if isGameOver || XPReward(reward) <= 0.0 || !gameHasStarted
         then player.level == before.level && player.currentXP == before.xp
         else (player.level, player.currentXP) == LevelUps(before.level, before.xp + XPReward(reward))
    }

    /** The bookkeeping of a kill whose drop branch is `reward` (game.js:656): the
        necromancer's kill count when a monster dies, the branch's experience, and the wolf
        flag. */
    method CreditKill(reward: Reward, inMonsters: bool)
      requires Valid()
      modifies this`forestWolfDefeated, this`gamePaused
      modifies player`monsterKillCount, player`level, player`currentXP, player`xpToNextLevel
      ensures Valid()
      ensures Credited(old(Counters()), reward, inMonsters)
    {
      if inMonsters && player.className == Some(Necromancer) {
        player.monsterKillCount := player.monsterKillCount + 1;
      }
      GainXP(XPReward(reward));
      if reward == WolfLoot && !forestWolfDefeated {
        forestWolfDefeated := true;
      }
    }

    /** The death branch of tryAttack (game.js:656-657) for a target that the monsters and
        bosses arrays hold or not, with `targetIsBoss` corrected: the kill is credited, the
        branch's drops are returned, the freed wall tier is removed, and so is the target. */
    method KillTarget(hit: Body, inMonsters: bool, inBosses: bool, rolls: Rolls) returns (drops: seq<Stack>)
      requires Valid() && ValidRolls(rolls)
      requires inMonsters == HasId(world.monsters, hit.id) && inBosses == HasId(world.bosses, hit.id)
      modifies this`world, this`forestWolfDefeated, this`gamePaused
      modifies player`monsterKillCount, player`level, player`currentXP, player`xpToNextLevel
      ensures Valid()
      ensures var reward := RewardOf(hit.kind, inMonsters, inBosses);
        && Credited(old(Counters()), reward, inMonsters)
        && drops == Drops(reward, rolls)
        && world == Cleared(old(world), hit, FreedTier(reward), RemovalPool(hit.kind, inMonsters, inBosses))
    {
      var reward := RewardOf(hit.kind, inMonsters, inBosses);
      CreditKill(reward, inMonsters);
      drops := Drops(reward, rolls);
      world := Cleared(world, hit, FreedTier(reward), RemovalPool(hit.kind, inMonsters, inBosses));
    }

    /** The tool the player holds, as tryAttack reads it. */
    function HeldTool(): Option<ToolInfo>
      reads this, player, player.inventorySlots, player.hotbarSlots
      requires Valid()
    {
      Equipped(player.hotbarSlots[player.selectedHotbarSlotIndex])
    }

    /** A hit that leaves `hit` as the target's new state: written wherever the target is
        held, which keeps the ids each array holds, and the player heals. */
    method Wound(hit: Body, t: Target)
      requires Valid() && hit.health.Some?
      modifies this`world, player`health
      ensures Valid()
      ensures world == Struck(old(world), hit)
      ensures HasId(world.monsters, hit.id) == HasId(old(world.monsters), hit.id)
      ensures HasId(world.bosses, hit.id) == HasId(old(world.bosses), hit.id)
      ensures player.health >= old(player.health)
    {
      ReplaceKeepsIds(world.monsters, hit, hit.id);
      ReplaceKeepsIds(world.bosses, hit, hit.id);
      world := Struck(world, hit);
      HealAfterHit(t, hit.health.value);
    }

    /** What a swing dealing `damage` to the live `target` does (game.js:649-657): nothing when
        the damage is not positive; otherwise the target's new health is written wherever it is
        held, the player heals, and a target brought to zero health dies. */
    method Strike(target: Body, t: Target, damage: real, inMonsters: bool, inBosses: bool, rolls: Rolls)
      returns (drops: seq<Stack>)
      requires Valid() && ValidRolls(rolls)
      requires target.health.Some?
      requires inMonsters == HasId(world.monsters, target.id) && inBosses == HasId(world.bosses, target.id)
      modifies this`world, this`forestWolfDefeated, this`gamePaused
      modifies player`health, player`monsterKillCount, player`level, player`currentXP, player`xpToNextLevel
      ensures Valid()
      ensures player.health >= old(player.health)
      ensures var hit := target.(health := Some(target.health.value - damage));
        var reward := RewardOf(target.kind, inMonsters, inBosses);
        && (damage <= 0.0 ==> world == old(world) && drops == [] && Counters() == old(Counters()))
        && (damage > 0.0 && hit.health.value > 0.0 ==> world == Struck(old(world), hit) && drops == [] && Counters() == old(Counters()))
        && (damage > 0.0 && hit.health.value <= 0.0 ==>
              && world == Cleared(Struck(old(world), hit), hit, FreedTier(reward), RemovalPool(target.kind, inMonsters, inBosses))
              && drops == Drops(reward, rolls)
              && Credited(old(Counters()), reward, inMonsters))
    {
      drops := [];
      if damage > 0.0 {
        var hit := target.(health := Some(target.health.value - damage));
        Wound(hit, t);
        if hit.health.value <= 0.0 {
          drops := KillTarget(hit, inMonsters, inBosses, rolls);
        }
      }
    }

    /** The damage, heal and death branch of tryAttack (game.js:649-657) for the target the
        swing picked, with `tool` the tool held (not a bow, which shoots instead): the damage of
        the table for the target's class is dealt, and returned. The drops are returned rather
        than scattered on the ground. */
    method ResolveHit(target: Body, tool: Option<ToolInfo>, rolls: Rolls) returns (damage: real, drops: seq<Stack>)
      requires Valid() && ValidRolls(rolls)
      requires tool == HeldTool() && Swingable(tool)
      requires target.health.Some?
      modifies this`world, this`forestWolfDefeated, this`gamePaused
      modifies player`health, player`monsterKillCount, player`level, player`currentXP, player`xpToNextLevel
      ensures Valid()
      ensures player.health >= old(player.health)
      ensures damage == MeleeDamage(tool, Classify(target.kind, HasId(old(world.monsters), target.id), HasId(old(world.bosses), target.id)),
        player.swordMultiplierBoost, player.modifiers)
      ensures var inMonsters := HasId(old(world.monsters), target.id);
        var inBosses := HasId(old(world.bosses), target.id);
        var hit := target.(health := Some(target.health.value - damage));
        var reward := RewardOf(target.kind, inMonsters, inBosses);
        && (damage <= 0.0 ==> world == old(world) && drops == [] && Counters() == old(Counters()))
        && (damage > 0.0 && hit.health.value > 0.0 ==> world == Struck(old(world), hit) && drops == [] && Counters() == old(Counters()))
        && (damage > 0.0 && hit.health.value <= 0.0 ==>
              && world == Cleared(Struck(old(world), hit), hit, FreedTier(reward), RemovalPool(target.kind, inMonsters, inBosses))
              && drops == Drops(reward, rolls)
              && Credited(old(Counters()), reward, inMonsters))
    {
      var inMonsters := HasId(world.monsters, target.id);
      var inBosses := HasId(world.bosses, target.id);
      var t := Classify(target.kind, inMonsters, inBosses);
      damage := MeleeDamage(tool, t, player.swordMultiplierBoost, player.modifiers);
      drops := Strike(target, t, damage, inMonsters, inBosses, rolls);
    }
  }
}
