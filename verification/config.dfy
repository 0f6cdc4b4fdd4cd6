/** The game's constant tables and tuning constants (config.js), as Dafny constants,
    together with the consistency facts that the crafting, upgrade and combat logic relies on. */
module Config {
  import opened Wrappers

  // ---------------------------------------------------------------- game settings

  const PLAYER_RADIUS: real := 15.0
  const PLAYER_MAX_HEALTH: real := 100.0
  const BASE_ATTACK_POWER: real := 5.0
  const BASE_GATHER_POWER: real := 3.0
  const SWORD_MULTIPLIER: real := 2.0
  const AXE_MULTIPLIER: real := 3.0
  const PICKAXE_MULTIPLIER: real := 4.0
  const FLASH_DURATION: int := 100
  const INVENTORY_COLS: nat := 8
  const INVENTORY_ROWS: nat := 4
  const INVENTORY_SIZE: nat := INVENTORY_COLS * INVENTORY_ROWS
  const HOTBAR_SIZE: nat := 5
  const MAX_STACK_SIZE: int := 64
  const HEAL_AMOUNT: real := 25.0
  const BASE_XP_FOR_LEVEL_2: int := 100
  const MONSTER_XP_REWARD: real := 10.0
  const PLAINS_BOSS_XP_REWARD: real := 250.0
  const MAX_UNDEAD_MINIONS: int := 10
  const MAX_SUMMONED_SLIMES: int := 2
  const GOLD_COIN_DROP_CHANCE: real := 1.0 / 50.0

  // ---------------------------------------------------------------- world and time

  const WORLD_WIDTH: real := 2000.0 * 10.0
  const WORLD_HEIGHT: real := 1500.0 * 10.0
  const DAY_LENGTH: int := 120000
  const NIGHT_START_PERCENT: real := 0.65
  const TRANSITION_DURATION_PERCENT: real := 0.08
  const SUNSET_START_PERCENT: real := NIGHT_START_PERCENT - TRANSITION_DURATION_PERCENT
  const SUNRISE_START_PERCENT: real := 1.0 - TRANSITION_DURATION_PERCENT
  const WALL_THICKNESS: real := 15.0

  /** BIOME_BOUNDS: the world is cut into thirds along each axis. */
  const WORLD_THIRD_X: real := WORLD_WIDTH / 3.0
  const WORLD_THIRD_Y: real := WORLD_HEIGHT / 3.0
  const ROCKY_X_END: real := WORLD_THIRD_X
  const ROCKY_Y_END: real := WORLD_THIRD_Y
  const SWAMP_X_START: real := WORLD_WIDTH - WORLD_THIRD_X
  const SWAMP_Y_END: real := WORLD_THIRD_Y
  const VOLCANO_X_END: real := WORLD_THIRD_X
  const VOLCANO_Y_START: real := WORLD_HEIGHT - WORLD_THIRD_Y
  const BADLANDS_X_START: real := WORLD_WIDTH - WORLD_THIRD_X
  const BADLANDS_Y_START: real := WORLD_HEIGHT - WORLD_THIRD_Y
  const FROSTLANDS_Y_END: real := WORLD_THIRD_Y
  const DESERT_Y_START: real := WORLD_HEIGHT - WORLD_THIRD_Y
  const FOREST_X_END: real := WORLD_THIRD_X
  const JUNGLE_X_START: real := WORLD_WIDTH - WORLD_THIRD_X

  // ---------------------------------------------------------------- minions

  const NECROMANCER_KILLS_TO_SUMMON: int := 5
  const UNDEAD_BASE_HEALTH_MULT: real := 0.8
  const UNDEAD_DAMAGE: real := 6.0
  const SUMMONED_SLIME_HEALTH_MULT: real := 1.0
  const SUMMONED_SLIME_DAMAGE: real := 8.0
  const UNDEAD_RADIUS: real := 8.0
  const SUMMONED_SLIME_RADIUS: real := 9.0

  // ---------------------------------------------------------------- item data

  /** The keys of ITEM_DATA, one constructor per key. */
  datatype Item =
    | Tree | Rock | Cactus | BoneTree
    | Wood | Stone | PlantFiber | MonsterGoop | GoldCoin | Dust | Stick
    | IronOre | CobaltOre | MithrilOre | AdamantiteOre
    | WoodPlank | StoneBlock | Workbench | IckyBed | Torch | ItemUpgraderT1
    | HealingSalve | MysticalOrb
    | WoodSword | WoodAxe | WoodPickaxe | StoneSword | StoneAxe | StonePickaxe
    | IronPickaxe | CobaltPickaxe | MithrilPickaxe | AdamantitePickaxe
    | WoodenBow | StoneReinforcedBow | BoneScythe | FishingRod

  datatype ToolType = Sword | Axe | Pickaxe | Bow | FishingRodTool

  /** The tool part of an ITEM_DATA entry (`type: 'tool'`); absent multipliers are `None`. */
  datatype ToolInfo = ToolInfo(
    toolType: ToolType,
    damageMultiplier: Option<real>,
    gatherMultiplier: Option<real>,
    toolTier: Option<int>,
    bowDamage: Option<real>)

  /** The gameplay-relevant fields of an ITEM_DATA entry (colours and shapes are rendering data). */
  datatype ItemInfo = ItemInfo(
    isPlaceable: bool,
    isSolid: bool,
    isAttackable: bool,
    isUsable: bool,
    isInteractable: bool,
    health: Option<int>,
    tool: Option<ToolInfo>)

  function Plain(): ItemInfo { ItemInfo(false, false, false, false, false, None, None) }
  function Natural(health: int): ItemInfo { ItemInfo(false, true, true, false, false, Some(health), None) }
  function Placeable(interactable: bool, health: int): ItemInfo { ItemInfo(true, true, true, false, interactable, Some(health), None) }
  function Usable(): ItemInfo { ItemInfo(false, false, false, true, false, None, None) }
  function ToolItem(t: Option<ToolInfo>): ItemInfo { ItemInfo(false, false, false, false, false, None, t) }

  /** ITEM_DATA (config.js:217-255). */
  function ItemData(i: Item): ItemInfo {
    match i
    case Tree => Natural(50)
    case Rock => Natural(150)
    case Cactus => Natural(100)
    case BoneTree => Natural(160)
    case Wood | Stone | PlantFiber | MonsterGoop | GoldCoin | Dust | Stick
      | IronOre | CobaltOre | MithrilOre | AdamantiteOre => Plain()
    case WoodPlank => Placeable(false, 50)
    case StoneBlock => Placeable(false, 150)
    case Workbench => Placeable(true, 100)
    case IckyBed => Placeable(true, 80)
    case Torch => Placeable(false, 10)
    case ItemUpgraderT1 => Placeable(true, 200)
    case HealingSalve | MysticalOrb => Usable()
    case WoodSword | WoodAxe | WoodPickaxe | StoneSword | StoneAxe | StonePickaxe
      | IronPickaxe | CobaltPickaxe | MithrilPickaxe | AdamantitePickaxe
      | WoodenBow | StoneReinforcedBow | BoneScythe | FishingRod => ToolItem(ToolOf(i))
  }

  /** The tool entries of ITEM_DATA (`type: 'tool'`); every other item is not a tool. */
  function ToolOf(i: Item): Option<ToolInfo> {
    match i
    case WoodSword => Some(ToolInfo(Sword, Some(SWORD_MULTIPLIER), None, None, None))
    case WoodAxe => Some(ToolInfo(Axe, None, Some(AXE_MULTIPLIER), None, None))
    case WoodPickaxe => Some(ToolInfo(Pickaxe, None, Some(PICKAXE_MULTIPLIER), Some(0), None))
    case StoneSword => Some(ToolInfo(Sword, Some(SWORD_MULTIPLIER * 1.5), None, None, None))
    case StoneAxe => Some(ToolInfo(Axe, None, Some(AXE_MULTIPLIER * 1.5), None, None))
    case StonePickaxe => Some(ToolInfo(Pickaxe, None, Some(PICKAXE_MULTIPLIER * 1.5), Some(1), None))
    case IronPickaxe => Some(ToolInfo(Pickaxe, None, Some(PICKAXE_MULTIPLIER * 2.0), Some(2), None))
    case CobaltPickaxe => Some(ToolInfo(Pickaxe, None, Some(PICKAXE_MULTIPLIER * 2.7), Some(3), None))
    case MithrilPickaxe => Some(ToolInfo(Pickaxe, None, Some(PICKAXE_MULTIPLIER * 3.5), Some(4), None))
    case AdamantitePickaxe => Some(ToolInfo(Pickaxe, None, Some(PICKAXE_MULTIPLIER * 4.5), Some(5), None))
    case WoodenBow => Some(ToolInfo(Bow, None, None, None, Some(45.0)))
    case StoneReinforcedBow => Some(ToolInfo(Bow, None, None, None, Some(66.0)))
    case BoneScythe => Some(ToolInfo(Sword, Some(SWORD_MULTIPLIER * 2.0), None, None, None))
    case FishingRod => Some(ToolInfo(FishingRodTool, None, None, None, None))
    case _ => None
  }

  // ---------------------------------------------------------------- recipes

  datatype RecipeId =
    | CraftStick | CraftWoodPlank | CraftTorch | CraftWoodSword | CraftWoodAxe | CraftWoodPickaxe
    | CraftWoodenBow | CraftHealingSalve | CraftWorkbench | CraftStoneBlock | CraftIckyBed
    | CraftStoneSword | CraftStoneAxe | CraftStonePickaxe | CraftItemUpgraderT1 | CraftStoneBow
    | CraftBoneScythe | CraftFishingRod
    | CraftPlank   // the id game.js's own table uses for planks

  /** An `{type, count}` pair: a recipe input entry or a recipe output. */
  datatype Stack = Stack(item: Item, count: int)

  /** A recipe; `input` lists the entries of the recipe's input object in their written order. */
  datatype Recipe = Recipe(id: RecipeId, input: seq<Stack>, output: Stack, requiresWorkbench: bool)

  /** The `recipes` table (config.js:258-281). */
  const RECIPES: seq<Recipe> := [
    Recipe(CraftStick, [Stack(Wood, 2)], Stack(Stick, 4), false),
    Recipe(CraftWoodPlank, [Stack(Wood, 1)], Stack(WoodPlank, 2), false),
    Recipe(CraftTorch, [Stack(Stick, 1), Stack(Wood, 1)], Stack(Torch, 3), false),
    Recipe(CraftWoodSword, [Stack(Stick, 1), Stack(WoodPlank, 2)], Stack(WoodSword, 1), false),
    Recipe(CraftWoodAxe, [Stack(Stick, 2), Stack(WoodPlank, 3)], Stack(WoodAxe, 1), false),
    Recipe(CraftWoodPickaxe, [Stack(Stick, 2), Stack(WoodPlank, 3)], Stack(WoodPickaxe, 1), false),
    Recipe(CraftWoodenBow, [Stack(Stick, 3), Stack(PlantFiber, 5)], Stack(WoodenBow, 1), false),
    Recipe(CraftHealingSalve, [Stack(PlantFiber, 2), Stack(MonsterGoop, 1)], Stack(HealingSalve, 1), false),
    Recipe(CraftWorkbench, [Stack(Wood, 10), Stack(Stone, 5)], Stack(Workbench, 1), false),
    Recipe(CraftStoneBlock, [Stack(Stone, 2)], Stack(StoneBlock, 1), true),
    Recipe(CraftIckyBed, [Stack(WoodPlank, 5), Stack(PlantFiber, 10), Stack(MonsterGoop, 3)], Stack(IckyBed, 1), true),
    Recipe(CraftStoneSword, [Stack(Stick, 1), Stack(Stone, 4)], Stack(StoneSword, 1), true),
    Recipe(CraftStoneAxe, [Stack(Stick, 2), Stack(Stone, 6)], Stack(StoneAxe, 1), true),
    Recipe(CraftStonePickaxe, [Stack(Stick, 2), Stack(Stone, 6)], Stack(StonePickaxe, 1), true),
    Recipe(CraftItemUpgraderT1, [Stack(StoneBlock, 10), Stack(IronOre, 5), Stack(WoodPlank, 10)], Stack(ItemUpgraderT1, 1), true),
    Recipe(CraftStoneBow, [Stack(WoodenBow, 1), Stack(Stone, 8), Stack(PlantFiber, 5)], Stack(StoneReinforcedBow, 1), true),
    Recipe(CraftBoneScythe, [Stack(Stick, 2), Stack(Dust, 15), Stack(MonsterGoop, 5)], Stack(BoneScythe, 1), true),
    Recipe(CraftFishingRod, [Stack(Stick, 3), Stack(PlantFiber, 2)], Stack(FishingRod, 1), true)
  ]

  /** The `recipes` table game.js declares for itself (game.js:338-356) and that doCraft consults;
      it differs from the config.js table in counts, ids and the recipes present. */
  const GAME_RECIPES: seq<Recipe> := [
    Recipe(CraftStick, [Stack(Wood, 1)], Stack(Stick, 2), false),
    Recipe(CraftPlank, [Stack(Wood, 1)], Stack(WoodPlank, 4), false),
    Recipe(CraftStoneBlock, [Stack(Stone, 1)], Stack(StoneBlock, 4), false),
    Recipe(CraftWoodSword, [Stack(WoodPlank, 2), Stack(Stick, 1)], Stack(WoodSword, 1), false),
    Recipe(CraftWoodAxe, [Stack(WoodPlank, 3), Stack(Stick, 2)], Stack(WoodAxe, 1), false),
    Recipe(CraftWoodPickaxe, [Stack(WoodPlank, 3), Stack(Stick, 2)], Stack(WoodPickaxe, 1), false),
    Recipe(CraftWoodenBow, [Stack(Stick, 3), Stack(PlantFiber, 3)], Stack(WoodenBow, 1), false),
    Recipe(CraftWorkbench, [Stack(Wood, 10)], Stack(Workbench, 1), false),
    Recipe(CraftIckyBed, [Stack(MonsterGoop, 10), Stack(WoodPlank, 5), Stack(PlantFiber, 5)], Stack(IckyBed, 1), false),
    Recipe(CraftHealingSalve, [Stack(PlantFiber, 3), Stack(MonsterGoop, 1)], Stack(HealingSalve, 1), false),
    Recipe(CraftTorch, [Stack(Stick, 1), Stack(PlantFiber, 1)], Stack(Torch, 3), false),
    Recipe(CraftStoneSword, [Stack(StoneBlock, 2), Stack(Stick, 1)], Stack(StoneSword, 1), true),
    Recipe(CraftStoneAxe, [Stack(StoneBlock, 3), Stack(Stick, 2)], Stack(StoneAxe, 1), true),
    Recipe(CraftStonePickaxe, [Stack(StoneBlock, 3), Stack(Stick, 2)], Stack(StonePickaxe, 1), true),
    Recipe(CraftStoneBow, [Stack(WoodenBow, 1), Stack(Stone, 10), Stack(PlantFiber, 5)], Stack(StoneReinforcedBow, 1), true),
    Recipe(CraftItemUpgraderT1, [Stack(WoodPlank, 15), Stack(StoneBlock, 10), Stack(IronOre, 5)], Stack(ItemUpgraderT1, 1), true)
  ]

  /** The keys of a recipe's input object: a JavaScript object cannot repeat a key. */
  predicate DistinctInputs(inputs: seq<Stack>) {
    forall i, j :: 0 <= i < j < |inputs| ==> inputs[i].item != inputs[j].item
  }

  /** What the crafting code relies on of one recipe: distinct input keys and positive counts. */
  predicate WellFormedRecipe(r: Recipe) {
    && DistinctInputs(r.input)
    && (forall k :: 0 <= k < |r.input| ==> r.input[k].count >= 1)
    && r.output.count >= 1
  }

  /** Recipe ids are unique, so `recipes.find(r => r.id === id)` picks the only match. */
  predicate UniqueIds(table: seq<Recipe>) {
    forall i, j :: 0 <= i < j < |table| ==> table[i].id != table[j].id
  }

  /** Every recipe of the config.js table is well formed (checked six entries at a time). */
  lemma RecipesWellFormed()
    ensures forall k :: 0 <= k < |RECIPES| ==> WellFormedRecipe(RECIPES[k])
  {
    RecipesPartA();
    RecipesPartB();
    RecipesPartC();
  }

  lemma RecipesPartA()
    ensures forall k :: 0 <= k < 6 ==> WellFormedRecipe(RECIPES[k])
  {
  }

  lemma RecipesPartB()
    ensures forall k :: 6 <= k < 12 ==> WellFormedRecipe(RECIPES[k])
  {
  }

  lemma RecipesPartC()
    ensures forall k :: 12 <= k < 18 ==> WellFormedRecipe(RECIPES[k])
  {
  }

  /** Ids whose rank strictly rises along a table are unique in it. */
  lemma {:induction false} RisingRanksUnique(table: seq<Recipe>, rank: RecipeId -> int)
    requires forall i :: 0 <= i < |table| - 1 ==> rank(table[i].id) < rank(table[i + 1].id)
    ensures UniqueIds(table)
  {
    forall i, j | 0 <= i < j < |table|
      ensures table[i].id != table[j].id
    {
      RanksRise(table, rank, i, j);
    }
  }

  lemma {:induction false} RanksRise(table: seq<Recipe>, rank: RecipeId -> int, i: int, j: int)
    requires forall i :: 0 <= i < |table| - 1 ==> rank(table[i].id) < rank(table[i + 1].id)
    requires 0 <= i < j < |table|
    ensures rank(table[i].id) < rank(table[j].id)
    decreases j - i
  {
    if j > i + 1 {
      RanksRise(table, rank, i, j - 1);
    }
  }

  /** The position of each id in the config.js table. */
  function ConfigRank(id: RecipeId): int {
    match id
    case CraftStick => 0 case CraftWoodPlank => 1 case CraftTorch => 2 case CraftWoodSword => 3
    case CraftWoodAxe => 4 case CraftWoodPickaxe => 5 case CraftWoodenBow => 6 case CraftHealingSalve => 7
    case CraftWorkbench => 8 case CraftStoneBlock => 9 case CraftIckyBed => 10 case CraftStoneSword => 11
    case CraftStoneAxe => 12 case CraftStonePickaxe => 13 case CraftItemUpgraderT1 => 14 case CraftStoneBow => 15
    case CraftBoneScythe => 16 case CraftFishingRod => 17 case CraftPlank => 18
  }

  /** The position of each id in game.js's table; ids it lacks come last. */
  function GameRank(id: RecipeId): int {
    match id
    case CraftStick => 0 case CraftPlank => 1 case CraftStoneBlock => 2 case CraftWoodSword => 3
    case CraftWoodAxe => 4 case CraftWoodPickaxe => 5 case CraftWoodenBow => 6 case CraftWorkbench => 7
    case CraftIckyBed => 8 case CraftHealingSalve => 9 case CraftTorch => 10 case CraftStoneSword => 11
    case CraftStoneAxe => 12 case CraftStonePickaxe => 13 case CraftStoneBow => 14 case CraftItemUpgraderT1 => 15
    case CraftWoodPlank => 16 case CraftBoneScythe => 17 case CraftFishingRod => 18
  }

  lemma RecipeIdsUnique()
    ensures UniqueIds(RECIPES)
  {
    ConfigRanksRiseA();
    ConfigRanksRiseB();
    RisingRanksUnique(RECIPES, ConfigRank);
  }

  lemma ConfigRanksRiseA()
    ensures forall k :: 0 <= k < 9 ==> ConfigRank(RECIPES[k].id) < ConfigRank(RECIPES[k + 1].id)
  {
  }

  lemma ConfigRanksRiseB()
    ensures forall k :: 9 <= k < 17 ==> ConfigRank(RECIPES[k].id) < ConfigRank(RECIPES[k + 1].id)
  {
  }

  /** Every recipe of game.js's own table is well formed. */
  lemma GameRecipesWellFormed()
    ensures forall k :: 0 <= k < |GAME_RECIPES| ==> WellFormedRecipe(GAME_RECIPES[k])
  {
    GameRecipesPartA();
    GameRecipesPartB();
    GameRecipesPartC();
  }

  lemma GameRecipesPartA()
    ensures forall k :: 0 <= k < 6 ==> WellFormedRecipe(GAME_RECIPES[k])
  {
  }

  lemma GameRecipesPartB()
    ensures forall k :: 6 <= k < 11 ==> WellFormedRecipe(GAME_RECIPES[k])
  {
  }

  lemma GameRecipesPartC()
    ensures forall k :: 11 <= k < 16 ==> WellFormedRecipe(GAME_RECIPES[k])
  {
  }

  lemma GameRecipeIdsUnique()
    ensures UniqueIds(GAME_RECIPES)
  {
    GameRanksRiseA();
    GameRanksRiseB();
    RisingRanksUnique(GAME_RECIPES, GameRank);
  }

  lemma GameRanksRiseA()
    ensures forall k :: 0 <= k < 8 ==> GameRank(GAME_RECIPES[k].id) < GameRank(GAME_RECIPES[k + 1].id)
  {
  }

  lemma GameRanksRiseB()
    ensures forall k :: 8 <= k < 15 ==> GameRank(GAME_RECIPES[k].id) < GameRank(GAME_RECIPES[k + 1].id)
  {
  }

  // ---------------------------------------------------------------- upgrader

  datatype Upgrade = Upgrade(material: Item, materialCount: int, output: Item)

  /** The two upgrader tables of the game: `UPGRADER_RECIPES` of config.js, which the upgrader
      menu of ui.js reads, and the module-level `UPGRADER_RECIPES` of game.js, which the input
      check and `doUpgrade` of game.js read. */
  datatype UpgradeTable = ConfigUpgrades | GameUpgrades

  /** UPGRADER_RECIPES (config.js:284-294), keyed by the item put into the upgrader. */
  function ConfigUpgrade(i: Item): Option<Upgrade> {
    match i
    case WoodPickaxe => Some(Upgrade(Stone, 10, StonePickaxe))
    case StonePickaxe => Some(Upgrade(IronOre, 15, IronPickaxe))
    case IronPickaxe => Some(Upgrade(CobaltOre, 20, CobaltPickaxe))
    case CobaltPickaxe => Some(Upgrade(MithrilOre, 25, MithrilPickaxe))
    case MithrilPickaxe => Some(Upgrade(AdamantiteOre, 30, AdamantitePickaxe))
    case WoodSword => Some(Upgrade(Stone, 8, StoneSword))
    case WoodAxe => Some(Upgrade(Stone, 12, StoneAxe))
    case WoodenBow => Some(Upgrade(Stone, 10, StoneReinforcedBow))
    case _ => None
  }

  /** game.js's own UPGRADER_RECIPES (game.js:361-371): the pickaxe chain only, with its own
      material counts; the sword, axe and bow rows are commented out. */
  function GameUpgrade(i: Item): Option<Upgrade> {
    match i
    case WoodPickaxe => Some(Upgrade(Stone, 15, StonePickaxe))
    case StonePickaxe => Some(Upgrade(IronOre, 10, IronPickaxe))
    case IronPickaxe => Some(Upgrade(CobaltOre, 12, CobaltPickaxe))
    case CobaltPickaxe => Some(Upgrade(MithrilOre, 15, MithrilPickaxe))
    case MithrilPickaxe => Some(Upgrade(AdamantiteOre, 18, AdamantitePickaxe))
    case _ => None
  }

  /** The recipe a table has for the item put into the upgrader. */
  function UpgraderRecipe(table: UpgradeTable, i: Item): Option<Upgrade> {
    match table
    case ConfigUpgrades => ConfigUpgrade(i)
    case GameUpgrades => GameUpgrade(i)
  }

  /** game.js's table offers exactly the pickaxe chain, every step of it at the same place as
      config.js's table but at a different material count. */
  lemma GameUpgradesArePickaxesOnly(i: Item)
    ensures GameUpgrade(i).Some? <==> i in {WoodPickaxe, StonePickaxe, IronPickaxe, CobaltPickaxe, MithrilPickaxe}
    ensures GameUpgrade(i).Some? ==>
      && ConfigUpgrade(i).Some?
      && GameUpgrade(i).value.material == ConfigUpgrade(i).value.material
      && GameUpgrade(i).value.output == ConfigUpgrade(i).value.output
      && GameUpgrade(i).value.materialCount != ConfigUpgrade(i).value.materialCount
  {
  }

  /** The number a tool's category is judged by: its damage or gather multiplier, or a bow's damage. */
  function ToolPower(i: Item): real {
    match ToolOf(i)
    case None => 0.0
    case Some(t) =>
      if t.damageMultiplier.Some? then t.damageMultiplier.value
      else if t.gatherMultiplier.Some? then t.gatherMultiplier.value
      else if t.bowDamage.Some? then t.bowDamage.value
      else 0.0
  }

  /** Every upgrade of either table turns a tool into a strictly stronger tool of the same kind
      and costs at least one unit of material. */
  lemma UpgradesStrengthen(table: UpgradeTable, i: Item)
    requires UpgraderRecipe(table, i).Some?
    ensures var u := UpgraderRecipe(table, i).value;
      && u.materialCount >= 1
      && ToolOf(i).Some? && ToolOf(u.output).Some?
      && ToolOf(u.output).value.toolType == ToolOf(i).value.toolType
      && ToolPower(u.output) > ToolPower(i)
  {
    if i in {WoodPickaxe, StonePickaxe, IronPickaxe, CobaltPickaxe, MithrilPickaxe} {
      PickaxeUpgradesStrengthen(table, i);
    } else {
      match i
      case WoodSword =>
      case WoodAxe =>
      case WoodenBow =>
    }
  }

  /** UpgradesStrengthen along the pickaxe chain. */
  lemma PickaxeUpgradesStrengthen(table: UpgradeTable, i: Item)
    requires i in {WoodPickaxe, StonePickaxe, IronPickaxe, CobaltPickaxe, MithrilPickaxe}
    ensures UpgraderRecipe(table, i).Some?
    ensures var u := UpgraderRecipe(table, i).value;
      && u.materialCount >= 1
      && ToolOf(i).Some? && ToolOf(u.output).Some?
      && ToolOf(u.output).value.toolType == ToolOf(i).value.toolType
      && ToolPower(u.output) > ToolPower(i)
  {
    match i
    case WoodPickaxe =>
    case StonePickaxe =>
    case IronPickaxe =>
    case CobaltPickaxe =>
    case MithrilPickaxe =>
  }

  /** Along the pickaxe chain an upgrade of either table raises the tool tier by exactly one. */
  lemma UpgradesRaiseTier(table: UpgradeTable, i: Item)
    requires UpgraderRecipe(table, i).Some? && ToolOf(i).Some? && ToolOf(i).value.toolTier.Some?
    ensures var u := UpgraderRecipe(table, i).value;
      && ToolOf(u.output).Some? && ToolOf(u.output).value.toolTier.Some?
      && ToolOf(u.output).value.toolTier.value == ToolOf(i).value.toolTier.value + 1
  {
    match i
    case WoodPickaxe =>
    case StonePickaxe =>
    case IronPickaxe =>
    case CobaltPickaxe =>
    case MithrilPickaxe =>
    case WoodSword =>
    case WoodAxe =>
    case WoodenBow =>
    case _ =>
  }

  /** The item reached by putting `i` through the upgrader `n` times, if every step has a recipe
      in the table. */
  function UpgradeTimes(table: UpgradeTable, i: Item, n: nat): Option<Item>
    decreases n
  {
    if n == 0 then Some(i)
    else match UpgraderRecipe(table, i)
      case None => None
      case Some(u) => UpgradeTimes(table, u.output, n - 1)
  }

  /** Upgrading strictly raises tool power, so no upgrade chain of either table comes back to
      where it began. */
  lemma {:induction false} UpgradeChainRises(table: UpgradeTable, i: Item, n: nat)
    requires n >= 1 && UpgradeTimes(table, i, n).Some?
    ensures ToolPower(UpgradeTimes(table, i, n).value) > ToolPower(i)
    ensures UpgradeTimes(table, i, n).value != i
    decreases n
  {
    var u := UpgraderRecipe(table, i).value;
    UpgradesStrengthen(table, i);
    if n > 1 {
      UpgradeChainRises(table, u.output, n - 1);
    }
  }

  // ---------------------------------------------------------------- classes

  datatype PlayerClass = Knight | Archer | Scout | Tank | Vampire | Necromancer | Summoner

  datatype ClassStats = ClassStats(
    healthMult: real, speedMult: real, swordBoost: real, bowBoost: real,
    lifesteal: real, daySpeedPenalty: real, killsToSummon: int)

  /** CLASS_DATA (config.js:116-125). */
  function ClassData(c: PlayerClass): ClassStats {
    match c
    case Knight => ClassStats(1.0, 1.00, 3.0, 1.0, 0.0, 1.0, 0)
    case Archer => ClassStats(1.0, 1.00, 1.0, 5.0, 0.0, 1.0, 0)
    case Scout => ClassStats(0.8, 1.75, 1.0, 1.0, 0.0, 1.0, 0)
    case Tank => ClassStats(3.0, 0.80, 1.0, 1.0, 0.0, 1.0, 0)
    case Vampire => ClassStats(0.8, 1.00, 1.0, 1.0, 2.5, 0.5, 0)
    case Necromancer => ClassStats(0.5, 0.80, 1.0, 1.0, 0.0, 1.0, NECROMANCER_KILLS_TO_SUMMON)
    case Summoner => ClassStats(0.9, 0.90, 1.0, 1.0, 0.0, 1.0, 0)
  }

  /** Only the necromancer summons by kills, and it needs NECROMANCER_KILLS_TO_SUMMON of them. */
  lemma OnlyNecromancerSummonsByKills(c: PlayerClass)
    ensures ClassData(c).killsToSummon > 0 <==> c == Necromancer
    ensures c == Necromancer ==> ClassData(c).killsToSummon == NECROMANCER_KILLS_TO_SUMMON
    ensures ClassData(c).daySpeedPenalty > 0.0 && ClassData(c).swordBoost >= 1.0 && ClassData(c).lifesteal >= 0.0
  {
  }

  // ---------------------------------------------------------------- weapon choices

  /** The keys that may appear in a weapon choice's `effects` object. */
  datatype EffectKey =
    | WeaponDamageMult | WeaponAttackSpeedMult | WeaponMoveSpeedMult | WeaponRangeMult
    | BonusMaxHealth | BonusMeleeDamage | WeaponOnKillHeal | BonusMaxSummons
    | BonusUndeadHealthMult | BonusSummonHealthMult | BonusSummonDamageMult
    | BonusLifesteal | BonusNightSpeedMult | BonusDaySpeedPenaltyMult

  datatype Effect = Effect(key: EffectKey, value: real)

  datatype WeaponChoice = WeaponChoice(id: string, effects: seq<Effect>)

  /** CLASS_WEAPON_CHOICES (config.js:304-337), with the `default` list used for a player without
      a class (`CLASS_WEAPON_CHOICES[className] || CLASS_WEAPON_CHOICES.default`). */
  function WeaponChoices(c: Option<PlayerClass>): (choices: seq<WeaponChoice>)
    ensures |choices| == 2
  {
    match c
    case Some(Knight) => [
      WeaponChoice("knight_greatsword", [Effect(WeaponDamageMult, 1.25), Effect(WeaponMoveSpeedMult, 0.90)]),
      WeaponChoice("knight_bastion", [Effect(BonusMaxHealth, 30.0), Effect(WeaponDamageMult, 1.05)])]
    case Some(Archer) => [
      WeaponChoice("archer_longbow", [Effect(WeaponDamageMult, 1.20), Effect(WeaponRangeMult, 1.10), Effect(WeaponMoveSpeedMult, 0.95)]),
      WeaponChoice("archer_shortbow", [Effect(WeaponAttackSpeedMult, 0.80), Effect(WeaponDamageMult, 0.90)])]
    case Some(Scout) => [
      WeaponChoice("scout_daggers", [Effect(WeaponAttackSpeedMult, 0.85), Effect(WeaponDamageMult, 0.90)]),
      WeaponChoice("scout_cloak", [Effect(WeaponMoveSpeedMult, 1.10), Effect(BonusMaxHealth, 5.0)])]
    case Some(Tank) => [
      WeaponChoice("tank_hammer", [Effect(BonusMeleeDamage, 40.0), Effect(WeaponAttackSpeedMult, 1.25)]),
      WeaponChoice("tank_shield", [Effect(BonusMaxHealth, 75.0), Effect(WeaponMoveSpeedMult, 0.90)])]
    case Some(Vampire) => [
      WeaponChoice("vampire_rapier", [Effect(BonusLifesteal, 0.05), Effect(WeaponAttackSpeedMult, 0.90)]),
      WeaponChoice("vampire_charm", [Effect(BonusNightSpeedMult, 1.15), Effect(BonusDaySpeedPenaltyMult, 0.90)])]
    case Some(Necromancer) => [
      WeaponChoice("necro_staff", [Effect(WeaponOnKillHeal, 1.0), Effect(WeaponDamageMult, 0.95)]),
      WeaponChoice("necro_tome", [Effect(BonusMaxSummons, 1.0), Effect(BonusUndeadHealthMult, 0.90)])]
    case Some(Summoner) => [
      WeaponChoice("summon_catalyst", [Effect(BonusSummonHealthMult, 1.40), Effect(BonusSummonDamageMult, 1.10)]),
      WeaponChoice("summon_focus", [Effect(BonusMaxSummons, 1.0), Effect(BonusSummonHealthMult, 0.85)])]
    case None => [
      WeaponChoice("generic_sword", [Effect(BonusMeleeDamage, 5.0)]),
      WeaponChoice("generic_boots", [Effect(WeaponMoveSpeedMult, 1.05)])]
  }

  /** No weapon choice lowers maximum health, and every multiplier a choice sets is positive. */
  lemma WeaponChoicesSane(c: Option<PlayerClass>, k: nat, e: nat)
    requires k < 2 && e < |WeaponChoices(c)[k].effects|
    ensures var eff := WeaponChoices(c)[k].effects[e];
      && eff.value > 0.0
      && (eff.key == BonusMaxHealth ==> eff.value >= 5.0)
  {
  }

  // ---------------------------------------------------------------- bosses and day phases

  datatype BossType = PlainsBoss | ForestWolf | JungleBoss

  /** BOSS_WALL_TIER_MAP (config.js:297-301): which wall tier falls with which boss. */
  function BossWallTier(b: BossType): Option<int> {
    match b
    case PlainsBoss => Some(1)
    case _ => None
  }

  lemma OnlyPlainsBossUnlocksWalls(b: BossType)
    ensures BossWallTier(b).Some? <==> b == PlainsBoss
    ensures b == PlainsBoss ==> BossWallTier(b) == Some(1)
  {
  }

  /** The day phases are cut at strictly increasing points inside the cycle (config.js:54-57). */
  lemma DayPhasesOrdered()
    ensures 0.0 < SUNSET_START_PERCENT < NIGHT_START_PERCENT < SUNRISE_START_PERCENT < 1.0
  {
  }
}
