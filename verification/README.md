# Island Co-op Base Building Game — a Dafny model of its core rules

This project models the rule logic of the browser game's `game.js`, `utils.js` and `config.js`:

- **Inventory and crafting.** The player's two rows of optional `{type, count}` slots: 32 inventory slots and a 5-slot hotbar, each stack capped at 64. It covers `addToInventory`, `removeFromInventory`, `getTotalItemCount`, `decrementHotbarItem`, `canCraft` and `doCraft`. These are imperative methods over `array`s, each proved against a sequence function. The conservation laws are proved about those functions.
- **Collision and line of sight.** `checkCollision` is a first-match scan over world objects. It tests circle against circle and circle against a wall's rectangle. Segment intersection and `isLineObstructed` are also covered. Coordinates are exact reals.
- **Player progress.** This covers:
  - `gainXP`: the level-up loop and the level-3 and level-5 menus;
  - the experience curve `calculateXPForNextLevel`;
  - `applyPerkChoice`, `applyWeaponEffects` and the healing salve;
  - the maximum-health rule every one of them keeps.
- **Summons.** The summoner's slime cap evicts the oldest slime first. The necromancer's undead are gated by a kill count.
- **The melee hit of `tryAttack`.** This covers:
  - the tool-versus-target damage table;
  - lifesteal and the on-kill heal;
  - the death branch: drops, experience, the wolf flag, removal of the boss's wall tier, and removal of the target from its arrays.
- **Small helpers.** `clamp`, `normalizeAngle`, `getBiomeAt`, `formatTime` and the forest wolf's corner picking.
- **Constant tables.** `ITEM_DATA`, both recipe tables, both `UPGRADER_RECIPES` tables (config.js's and game.js's own), `CLASS_DATA`, `CLASS_WEAPON_CHOICES`, `BOSS_WALL_TIER_MAP` and the day-phase thresholds. The consistency facts the logic relies on are proved about them.

Modules, one per file:
- `Wrappers` (wrappers.dfy)
- `Config` (config.dfy)
- `Entities` (entities.dfy): world objects
- `Geometry` (geometry.dfy)
- `Collision` (collision.dfy)
- `Utils` (utils.dfy)
- `Inventory` (slots.dfy): the slot rules on sequences
- `Crafting` (crafting.dfy)
- `Players` (players.dfy): the `Player` class
- `Game` (game.dfy): the `GameState` class

Item types are an enumeration of the `ITEM_DATA` keys. A recipe input or output can therefore only name an existing item.

How the source's runtime details are represented:
- **Numbers.** JavaScript numbers are exact reals or unbounded integers. `Math.pow(level, 1.5)` is computed exactly as the integer square root of `10000 * level^3`.
- **Inputs.** Random draws, `Date.now()`, the chosen attack target and the spawned world objects are parameters.
- **Shared objects.** An object shared between arrays (a solid resource is in `resources` and `solidObjects`) is one record. An update to it is written wherever its id appears.
- **In-place slot changes.** `slot.count += add` is modelled as writing a new slot value into the array.
- **Class table.** `CLASS_DATA` is a constant table. The one field the game changes at run time, `CLASS_DATA.necromancer.killsToSummon`, is a field of `GameState`.

## Model

| member | source | states |
|---|---|---|
| Collision.CheckCollision | game.js:566-602 | `null` exactly when no entry hits. Otherwise the result is the first entry that is present, not the ignored id, eligible to collide, and overlapping the mover's circle. |
| Collision.CollisionFilters | game.js:567-581 | The object returned is never the one with `ignoreId`. It is never a solid, non-wall, non-player object whose numeric health is at most 0. |
| Collision.MissesInFrontDoNotMatter | game.js:567-601 | Entries before the first hit that do not hit leave the scan's answer unchanged (first-match semantics). |
| Collision.ShouldCollide | game.js:571-584 | Walls and the player always collide. A solid object collides unless its numeric health is at most 0. A non-solid one collides only with positive numeric health. No ensures. Its property is Collision.CollisionFilters. |
| Collision.Overlaps | game.js:587-598 | A wall is hit when the closest point of its rectangle is strictly nearer than the radius. Another object needs a numeric radius and a centre distance below the sum of the radii. No ensures. It is used by Collision.CheckCollision. |
| Geometry.DistanceSq | utils.js:4-8 | The squared distance is non-negative and is 0 between a point and itself. |
| Geometry.DistanceSqSymmetric | utils.js:4-8 | The squared distance is symmetric in its two points. |
| Geometry.Clamp | utils.js:20-22 | The result lies in [lo, hi] when lo <= hi. It equals the value when the value is already inside. Below the range it is lo. With crossed bounds the lower bound wins. |
| Geometry.Orientation | utils.js:56-60 | The result is 0, 1 or 2, and is 0 exactly for collinear points. |
| Geometry.OrientationSwap | utils.js:56-60 | Swapping the first two points exchanges orientations 1 and 2 and keeps 0. |
| Geometry.SegmentsIntersectSymmetric | utils.js:55-82 | Swapping the two segments gives the same answer. |
| Geometry.SegmentsIntersectReversed | utils.js:55-82 | Walking either segment backwards gives the same answer. |
| Geometry.SharedEndpointIntersects | utils.js:55-82 | Segments sharing an endpoint intersect. |
| Geometry.SegmentsIntersect | utils.js:55-82 | The general case of differing orientations, then the four collinear cases with the bounding-box test. No ensures. Its properties are the symmetry, reversal and shared-endpoint lemmas above. |
| Geometry.IsLineObstructed | utils.js:85-107 | Blocked exactly when some entry with `isWall` has an edge the sight line crosses. Non-walls are skipped. |
| Geometry.NoWallsNeverObstruct | utils.js:85-107 | An array without walls never blocks the view. |
| Geometry.FewerWallsObstructLess | utils.js:85-107 | Removing objects from the array can only unblock a view, never block one. |
| Entities.WithoutId | game.js:657 | `filter(o => o.id !== id)` keeps every object with another id, keeps nothing with that id, and adds nothing. |
| Entities.WithoutIdSplits | game.js:657 | Filtering two joined arrays equals filtering each and joining the results. So the objects kept stay in their relative order, and repeated entries survive. |
| Entities.Replace | game.js:652 | Every entry with the target's id is replaced by the target's new state. Everything else is kept and the length is unchanged. |
| Config.RecipesWellFormed | config.js:258-281 | Every config.js recipe has distinct input keys, input counts >= 1 and an output count >= 1. |
| Config.RecipeIdsUnique | config.js:258-281 | The config.js recipe ids are pairwise distinct, so `find` by id is unambiguous. |
| Config.GameRecipesWellFormed | game.js:338-356 | The same well-formedness holds for the table that game.js itself declares and searches. |
| Config.GameRecipeIdsUnique | game.js:338-356 | The ids of game.js's own table are pairwise distinct. |
| Config.GameUpgradesArePickaxesOnly | game.js:361-371 | game.js's table offers exactly the five pickaxe upgrades. Each has the same material and output as config.js's row for that pickaxe but a different material count. |
| Config.UpgradesStrengthen | game.js:361-371 | In both upgrader tables (game.js's own, which `doUpgrade` reads, and config.js:284-294) every recipe costs at least one unit of material. It turns a tool into a tool of the same type with strictly higher damage or gather power. |
| Config.UpgradesRaiseTier | config.js:243-250 | In both upgrader tables each pickaxe upgrade raises `toolTier` by exactly 1. |
| Config.UpgradeChainRises | game.js:361-371 | In either table, any chain of one or more upgrades strictly raises tool power and never returns to its starting item, so the upgrader has no cycle. |
| Config.OnlyNecromancerSummonsByKills | config.js:116-125 | `killsToSummon > 0` exactly for the necromancer, and there it is NECROMANCER_KILLS_TO_SUMMON. Every class has a positive day penalty, a sword boost >= 1 and non-negative lifesteal. |
| Config.WeaponChoices | config.js:304-337 | Every class, and the `default` entry, offers exactly two weapon choices. |
| Config.WeaponChoicesSane | config.js:304-337 | Every effect value of every choice is positive. A `bonusMaxHealth` effect adds at least 5. |
| Config.OnlyPlainsBossUnlocksWalls | config.js:297-301 | `BOSS_WALL_TIER_MAP` maps the plains boss, and only it, to tier 1. |
| Config.DayPhasesOrdered | config.js:54-57 | 0 < SUNSET_START_PERCENT < NIGHT_START_PERCENT < SUNRISE_START_PERCENT < 1. |
| Inventory.FirstStackable | game.js:482 | Either -1 when no slot holds a non-full stack of the type, or the lowest index of such a slot. |
| Inventory.FirstEmpty | game.js:481 | Either -1 when every slot is occupied, or the lowest index of an empty slot. |
| Inventory.TopUp | game.js:485 | The first loop of addToInventory. While units remain, the first non-full stack of the type is topped up. The row keeps its length. What it means for the totals is stated by Inventory.AddConserves and Inventory.AddTopsUpFirst. |
| Inventory.FillEmpty | game.js:486 | The second loop. While units remain, a stack of up to 64 goes into the first empty slot. The rest is dropped when none is left. The row keeps its length. |
| Inventory.AddSpec | game.js:484-486 | addToInventory on the inventory row: TopUp, then FillEmpty with what is left. The row keeps its length. Its properties are the three lemmas below. |
| Inventory.AddConserves | game.js:484-486 | Adding keeps every stack within 1..64. The type's units rise by `count` when it fits, and otherwise by exactly the free room. The excess is dropped, and a non-positive count adds nothing. |
| Inventory.AddTouchesOnlyT | game.js:484-486 | Adding changes only empty slots and stacks of the added type, and always leaves them holding that type. |
| Inventory.AddKeepsOtherItems | game.js:484-486 | Units of every other type are unchanged by adding. |
| Inventory.AddTopsUpFirst | game.js:485-486 | If any empty slot was filled, every stack of the type that existed before is now full. |
| Inventory.DrainDown | game.js:488-489 | One backwards loop of removeFromInventory. Each stack of the type gives min(wanted, count), and emptied slots become null. The row keeps its length. |
| Inventory.RemoveSpec | game.js:487-491 | removeFromInventory: the inventory is drained back to front, then the hotbar if units are still wanted. Success means all were removed. Both rows keep their lengths. Its properties are the lemmas below. |
| Inventory.RemoveConserves | game.js:487-491 | Removal succeeds exactly when inventory plus hotbar held `count`. It takes min(count, inventory units) from the inventory and only the rest from the hotbar. On a shortfall it removes every unit of the type with no rollback. Stacks stay valid, and slots of other types are untouched. |
| Inventory.RemoveKeepsOtherItems | game.js:487-491 | Units of every other type are unchanged by removing. |
| Inventory.RemoveBackToFront | game.js:488-489 | Each row is drained from its highest index down. The hotbar is touched only after the inventory holds none of the type. |
| Inventory.CountZeroIffAbsent | game.js:492 | A row holds zero units of a type exactly when no slot holds it. The count is never negative. |
| Crafting.Available | game.js:495 | `canCraft` holds exactly when the total of every input is at least its required count. |
| Crafting.FindRecipe | game.js:496 | `find` returns `undefined` exactly when no recipe has the id. Otherwise it returns the first recipe carrying the id. |
| Crafting.FindRecipeUnique | game.js:496 | In a table with unique ids the lookup returns the one recipe with that id. |
| Crafting.RemoveAll | game.js:497-498 | The removal loop of doCraft. Each input is removed in order, and the loop stops at the first failed removal, keeping what that removal took. Both rows keep their lengths and stay valid. |
| Crafting.CraftSpec | game.js:496-499 | One craft of a recipe already found. It changes nothing when the inputs are not all available. After a failed removal it keeps what the removals left. Otherwise the output is added to the inventory. Both rows keep their lengths. |
| Crafting.DoCraftSpec | game.js:496-499 | doCraft by id: an unknown id changes nothing, a known one is CraftSpec of the first recipe with that id. Both rows keep their lengths. |
| Crafting.RemoveAllKeepsOtherItems | game.js:497-498 | Removing inputs that are all different from an item leaves that item's units alone. |
| Crafting.CraftRemovesExactly | game.js:496-498 | When every input is available, no removal fails and each input's total drops by exactly its requirement. |
| Crafting.CraftOutcome | game.js:496-499 | An unaffordable craft changes nothing. An affordable one leaves the hotbar as the removals left it, and adds min(output count, room) units of the output to the inventory. |
| Crafting.CraftKeepsOtherItems | game.js:496-499 | Items that are neither an input nor the output keep their totals across a craft. |
| Crafting.CraftFromTable | game.js:496-499 | For an affordable recipe of a table with unique ids and well-formed recipes, `doCraft` by id removes exactly each input's count and then adds the output. |
| Crafting.RecipeNeedsWellFormed | config.js:258-281 | A well-formed recipe gives the distinct, positive input list the crafting lemmas assume. |
| Players.ApplyEffect | game.js:464-468 | One case of the effect switch. The `weaponMoveSpeedMult` key scales the movement bonus, and a day-penalty multiplier recomputes the penalty as min(1, base × multiplier). No ensures. Its properties are the lemmas below. |
| Players.FoldEffects | game.js:463-468 | The effects applied in list order. No ensures. Its properties are the lemmas below. |
| Players.WeaponFieldsFromChoiceOnly | game.js:463-468 | The five weapon fields after applyWeaponEffects depend only on the chosen weapon, so a second choice replaces the first rather than stacking on it. |
| Players.WeaponMoveSpeedStaysNeutral | game.js:463-464 | The `weaponMoveSpeedMult` field stays 1.0 whatever is chosen, because its key scales the movement bonus instead. |
| Players.MaxHealthBonusAccumulates | game.js:465 | The health accumulator rises by the sum of the choice's `bonusMaxHealth` values. |
| Players.DayPenaltyCapped | game.js:467-468 | The day penalty is unchanged unless a penalty multiplier is applied. After one it is at most 1. |
| Players.WeaponChoiceNeverLowersMaxHealth | config.js:304-337 | No offered weapon lowers maximum health. |
| Players.PerkModifiers | game.js:449 | The health bonus grows exactly for option 1 of knight, scout and tank, and never shrinks. The weapon fields and the day penalty are untouched. Only the summoner's perk changes the summon bonus, and by exactly +1. A player without a class gets nothing. |
| Players.LoweredKillRequirement | game.js:449 | The necromancer's perk lowers the requirement by one, never below 1. A requirement of 0 falls back to NECROMANCER_KILLS_TO_SUMMON - 1. |
| Players.LevelUps | game.js:444 | Where the level-up loop ends: whole requirements are paid while the experience covers them. It terminates because each round lowers the whole part of the experience. Its properties are Players.LevelUpsSound and Players.GainsCompose. |
| Players.LevelUpsSound | game.js:444 | The level-up loop never lowers the level. It ends with experience in [0, requirement of the new level). It keeps the experience banked since level 1 plus the remainder unchanged. It levels up exactly when the first requirement is met. |
| Players.LevelSplitUnique | game.js:444 | A total of experience splits into a level and a remainder below that level's requirement in only one way. |
| Players.LevelUpsDependsOnTotal | game.js:444 | Where the loop ends depends only on the banked total. |
| Players.GainsCompose | game.js:444 | Gaining a and then b ends at the same level and experience as gaining a + b at once. |
| Players.EmptySlots | game.js:694 | A fresh row of n empty slots. |
| Players.StartingHotbar | game.js:698 | A fresh hotbar holding a wooden sword and a wooden pickaxe in its first two slots and nothing else. |
| Players.Player.constructor | game.js:687-698 | The class stats of the class table: maximum health, speed multiplier, sword and bow boosts and lifesteal. Full health, level 1 with no experience and a requirement of 100, no kills and no perk. Fresh modifiers with the class's day penalty, the first hotbar slot selected, an empty inventory and the two starting tools. The player invariant holds. |
| Players.Player.FindFirstEmptyInventorySlot | game.js:481 | Returns the index FirstEmpty specifies. |
| Players.Player.FindItemStackableInventorySlot | game.js:482 | Returns the index FirstStackable specifies. |
| Players.Player.AddToInventory | game.js:484-486 | The inventory becomes AddSpec of the old one; the hotbar is untouched. The player invariant, including the 1..64 stack bound, is kept. |
| Players.Player.TopUpStacks | game.js:485 | The first loop ends with the slots and remainder TopUp specifies. |
| Players.Player.FillEmptySlots | game.js:486 | The second loop ends with the slots FillEmpty specifies. |
| Players.Player.RemoveFromInventory | game.js:487-491 | The rows and the result are RemoveSpec of the old rows. The player invariant is kept. |
| Players.Player.DrainBackwards | game.js:488-489 | One backwards loop ends with the row and the remainder DrainDown specifies. |
| Players.Player.GetTotalItemCount | game.js:492 | The total over both rows is never negative, and is 0 exactly when no slot of either row holds the type. |
| Players.Player.CanCraft | game.js:495 | True exactly when GetTotalItemCount of every input reaches its requirement. |
| Players.Player.RemoveInputs | game.js:497-498 | The input-removal loop ends where RemoveAll specifies, including the stop at the first failed removal. |
| Players.Player.DoCraft | game.js:496-499 | Both rows become DoCraftSpec of the old rows. The player invariant is kept. |
| Players.Player.DecrementHotbarItem | game.js:630 | It succeeds exactly for an occupied slot inside the hotbar. It takes one unit from that slot only and nulls the slot when it empties. The inventory is untouched. |
| Players.Player.Heal | game.js:653-655 | Only health is written. It becomes min(maxHealth, health + amount), so it never exceeds the maximum, and a non-negative amount never lowers it. |
| Players.Player.UseHealingSalve | game.js:659 | Used exactly when a salve is selected and health is below the maximum. Only health and the hotbar are written. When used, health rises by HEAL_AMOUNT (capped), the selected slot loses one salve (emptied at zero) and every other slot is unchanged. Otherwise health and the hotbar are unchanged. |
| Players.Player.AddExperience | game.js:444 | Level and experience end at LevelUps of the old level and the old experience plus the gain. `leveledUp` is true exactly when the level rose. |
| Players.Player.LevelUpWhileDue | game.js:444 | The `while` loop ends at LevelUps, below the new requirement, with the requirement recomputed for the new level. |
| Players.Player.ApplyLevel3Perk | game.js:449-450 | The class's perk is applied and the health bonus is paid into maximum and current health alike (equal, non-negative rises). The accumulator is reset and the perk is marked chosen. |
| Players.Player.ApplyWeaponEffects | game.js:462-470 | Only the modifiers, maximum health and health are written. The weapon fields are reset and the effects folded in order. The health bonus is paid into maximum health and health is capped at it, so health <= maxHealth still holds. |
| Utils.NormalizedAngleInRange | utils.js:14-18 | The normalised angle lies in (-PI, PI]. |
| Utils.TurnsUnique | utils.js:14-18 | Exactly one whole number of turns brings an angle into (-PI, PI]. |
| Utils.NormalizeAngle | utils.js:14-18 | The two loops return the input shifted by whole turns into (-PI, PI]. |
| Utils.GetBiomeAt | utils.js:33-44 | The if-chain of getBiomeAt: the four corners first, then the bands, plains last. No ensures. Its properties are Utils.BiomeGrid and Utils.PlainsOnlyInTheMiddle. |
| Utils.BiomeGrid | utils.js:33-44 | The chain of tests draws the three-by-three grid of biomes, so the corner tests never compete. |
| Utils.PlainsOnlyInTheMiddle | utils.js:33-44 | Plains is returned exactly for points of the middle cell. |
| Utils.NatToStringRoundTrip | utils.js:51 | `toString` of a whole number spells that number back. |
| Utils.PaddedNumber | utils.js:51 | `padStart(2, '0')` of a number's digits has at least two digits (exactly two below 100) and keeps the value. |
| Utils.FormatTime | utils.js:46-52 | formatTime: a negative duration counts as 0, then whole minutes and the remaining seconds are padded to two digits and joined by a colon. No ensures. Its properties are Utils.FormatTimeFields and Utils.FormatTimeNegative. |
| Utils.FormatTimeFields | utils.js:46-52 | The display is minutes ":" seconds. The minutes field has at least two digits and spells floor(ms / 60000); the seconds field has exactly two digits and is below 60. Negative input counts as 0. |
| Utils.ClockFields | utils.js:49-51 | The two padded fields spell the minutes and the seconds. |
| Utils.FormatTimeNegative | utils.js:47 | A negative duration displays "00:00". |
| Utils.CalculateXPForNextLevel | utils.js:148-151 | The requirement is never below 100, and is exactly 100 below level 1. |
| Utils.XPRequirementMonotone | utils.js:148-151 | The requirement never falls as the level rises. |
| Utils.XPCurveSamples | utils.js:148-151 | Level 1 needs 100 and level 2 needs floor(200·√2) = 282. |
| Utils.ScaledIndex | utils.js:132 | `Math.floor(Math.random() * n)` is a valid index below n. |
| Utils.Wolf.PickNewForestCornerTarget | utils.js:116-145 | The filter as written. The chosen corner is a forest corner. It differs from the previous target only when that target was itself a corner. The target stored is ForestTarget of the corner. For a positive radius narrower than the forest that target is no corner, so after any pick the next filter excludes nothing. The change time is stamped. |
| Utils.ForestTarget | utils.js:134-142 | The offset corner clamped to the forest: at least `radius` from the left and right edges when the forest is wide enough, the same for top and bottom, and strictly inside the forest's width for a positive radius narrower than it. |
| Utils.TargetIsNoCorner | utils.js:126-142 | For a positive radius narrower than the forest, a stored target is never one of the four corners, and filtering the corners against it removes none. |
| Utils.CornerFilterLeavesThree | utils.js:127 | Filtering one corner out of the four leaves exactly three. |
| Utils.Wolf.PickNewForestCornerAvoidingRepeat | utils.js:124-132 | The pick the comment at utils.js:125 intends. It remembers the chosen corner, and the new corner is a forest corner different from the one chosen last time. The target and the change time are stored as in the pick as written. |
| Game.ReplaceKeepsIds | game.js:649-652 | Writing the hit target back keeps which ids each array holds, so the monster and boss tests mean the same after the hit. |
| Game.WithoutWallTier | game.js:656 | The tier filter keeps exactly the objects that are not walls of that tier. |
| Game.WithoutWallTierSplits | game.js:656 | The filter keeps the relative order of what it keeps: filtering a concatenation concatenates the filtered parts. |
| Game.WithoutWallTierKeepsOthers | game.js:656 | An array with no wall of the tier is returned unchanged. |
| Game.Struck | game.js:652 | Writing the target's new health changes no array length and leaves `walls` alone. |
| Game.Cleared | game.js:656-657 | After a kill the target's id is gone from its pool and the other pools are untouched. `walls` loses exactly the freed tier. `solidObjects` loses the freed tier's walls and, for a solid target, the target. |
| Game.ClearingNeverBlocksSight | game.js:656-657 | A kill's removals can only unblock a sight line, tested against `walls` or `solidObjects`. |
| Game.ToolsSwingable | config.js:241-254 | Every non-bow tool has the multiplier its damage formula reads. |
| Game.Equipped | game.js:631 | The selected slot's tool entry. An empty slot or an item that is not a tool means bare hands. No ensures. It is the tool argument of Game.MeleeDamage. |
| Game.Classify | game.js:649 | The target flags: enemy when `monsters` or `bosses` holds it, monster when `monsters` does, and the tree, rock, cactus, bone-tree, placed, undead and slime tests on its type. No ensures. It is the target argument of Game.MeleeDamage. |
| Game.MeleeDamage | game.js:649-652 | Every branch of the damage table. A sword against an enemy, undead or slime deals (BASE_ATTACK_POWER × damageMultiplier × swordBoost + sword and melee bonuses) × weaponDamageMult. Any other tool deals BASE_GATHER_POWER × gatherMultiplier when it matches the resource, BASE_GATHER_POWER × 2 when an axe or pickaxe hits a structure, and BASE_ATTACK_POWER/2 otherwise. Bare hands deal BASE_GATHER_POWER/3 to a resource or structure, and otherwise (BASE_ATTACK_POWER for a fighter or BASE_GATHER_POWER, plus the melee bonus) × weaponDamageMult. |
| Game.GatherMultipliersAtLeastThree | config.js:242-250 | Every axe and pickaxe has a gather multiplier of at least 3. |
| Game.MatchedToolBeatsTheRest | game.js:649-652 | An axe on a tree, bone tree or cactus, or a pickaxe on a rock, deals BASE_GATHER_POWER × gatherMultiplier, which is at least 9. That is more than a wrong tool (2.5), which is more than bare hands on a resource (1). |
| Game.SwordBeatsBareHands | game.js:649-651 | Against an enemy, undead or slime, a sword hits at least as hard as bare hands (for a class boost >= 1 and non-negative bonuses). |
| Game.RewardAsWritten | game.js:656 | The drop chain as written throws for every target that is neither a natural resource nor in `monsters`. |
| Game.RewardOf | game.js:656 | With the boss test corrected: plains-boss and wolf loot come exactly from those bosses in `bosses`, monster loot exactly from `monsters`, and a placed structure drops itself. |
| Game.RemovalAsWritten | game.js:657 | The removal chain as written completes only for monsters. |
| Game.RemovalPool | game.js:657 | With the boss test corrected: monsters leave `monsters`, bosses leave `bosses`, undead and slimes leave their own pools, and everything else leaves `resources`. |
| Game.AsWrittenAgreesWhereItRuns | game.js:656-657 | Wherever the written chains do not throw, they agree with the corrected ones. |
| Game.PlainsBossKillThrowsAsWritten | game.js:656 | A plains boss killed in `bosses` throws as written before its loot, experience and wall removal. Corrected, it yields plains-boss loot and frees tier 1. |
| Game.TreeKillThrowsAsWritten | game.js:656-657 | A felled tree drops wood as written but then throws, so it stays in `resources`. Corrected, it is removed from `resources`. |
| Game.FreedTier | game.js:656 | A wall tier is freed exactly by the plains boss's branch. |
| Game.XPReward | game.js:656 | Experience is awarded, always non-negative, exactly for monsters and the three bosses. |
| Game.Drops | game.js:656 | Every drop count lies in 1..25, and there are no drops exactly for the jungle boss or no branch. Per branch, in push order: wood 1..3, then possibly one plant fiber. Stone 1..2 alone. Plant fiber 1..2 alone. Dust 1..3, then possibly one bone scythe. Goop 1..4, then possibly one gold coin and one healing salve. For the plains boss: gold 10..25, stone 5..15, iron ore 15, then possibly two healing salves. The wolf drops one mystical orb, and a structure drops itself. |
| Game.Shifted | game.js:672 | `shift()` removes exactly the first element. |
| Game.SummonedPool | game.js:672-674 | The new slime is last. At the cap the oldest slime is evicted; below it the pool is kept. |
| Game.SummonKeepsCap | game.js:672-674 | A pool at or under a whole-number cap stays at or under it after a summon. |
| Game.GameState.constructor | game.js:692-699 | The arrays are as spawned with empty minion pools, and the game is started and unpaused. The player is in the same start state the player constructor gives: class stats, full health, level 1, no experience, kills or perk, fresh modifiers, an empty inventory and the starting tools. The kill requirement is NECROMANCER_KILLS_TO_SUMMON. |
| Game.GameState.GainXP | game.js:444 | Nothing happens after game over, before the start or for a non-positive amount. Otherwise the level and experience end at LevelUps. The game pauses exactly when a level-up ends on level 3 without the perk or on level 5 without a pet. The invariant is kept. |
| Game.GameState.OpenLevelMenus | game.js:444 | After a level-up, the perk menu (level 3) or the pet menu (level 5) pauses the game. |
| Game.GameState.ApplyPerkChoice | game.js:449-450 | A no-op once the perk is chosen or before the start. Otherwise: the class's perk, the necromancer's lowered requirement, the perk marked chosen, the game unpaused, and equal rises of maximum and current health. |
| Game.GameState.TrySummonSlime | game.js:672-674 | Only a summoner in a running, unpaused game summons. The slime pool becomes SummonedPool with cap 2 + bonus, and nothing else in the world changes. |
| Game.GameState.TrySummonUndead | game.js:678-680 | A necromancer in a running, unpaused game with enough kills and fewer than 10 undead gains one undead and pays the kill requirement. Otherwise nothing changes. The undead cap is kept. |
| Game.GameState.Craft | game.js:496-499 | doCraft with game.js's own recipe table: the rows become DoCraftSpec over GAME_RECIPES. |
| Game.GameState.HealAfterHit | game.js:653-655 | Lifesteal applies while the enemy survives and the on-kill heal when it dies, each capped at maximum health. Health never falls. |
| Game.GameState.CreditKill | game.js:656 | The kill's bookkeeping: the necromancer's kill count +1 for a monster, the branch's experience gained as GainXP gains it, and the wolf flag set by the wolf. |
| Game.GameState.KillTarget | game.js:656-657 | With the boss test corrected, the kill is credited and the branch's drops are returned. The freed tier's walls and the target are removed. |
| Game.GameState.Wound | game.js:652-655 | The target's new health is written wherever it is held, the array memberships are kept, and the player never loses health. |
| Game.GameState.Strike | game.js:652-657 | A non-positive hit changes nothing. A non-lethal one writes the new health and keeps the counters. A lethal one also clears the target, returns its drops and credits the kill. |
| Game.GameState.ResolveHit | game.js:649-657 | The damage dealt is MeleeDamage for the target's class and the held tool. The outcome is that of Strike. Health never falls and the invariant is kept. |

## Left out

- AI, projectiles and the world clock. `updateMonsters`, `updateBosses`, `updateProjectiles`, `updateWorld` and the rest are called from game.js:713 but are not part of this model.
- Rendering, the DOM and input handling. This covers `updateUI`, the menu builders, `draw`, `gameLoop`, the crafting menu and the listeners. The perk and pet menus are modelled only as setting `gamePaused`.
- The upgrader flow (game.js:533-557): the input check and `doUpgrade`. It is driven by a UI selection buffer. Only the table it reads (game.js:361-371) and the properties of that table are modelled, together with config.js's table, which only the upgrader menu of ui.js reads.
- Random world generation: `spawnInitialResources`, `spawnInitialMonsters`, `spawnBosses`, `createWalls` and `spawnJungleBoss`. Their results are parameters of `Game.GameState.constructor`, and the jungle boss spawn after the wolf's death is only the `forestWolfDefeated` flag.
- Target picking in `tryAttack` (angles, swing arc, range) and the bow's shot path. `Game.GameState.ResolveHit` takes the picked target and requires a non-bow tool. The flash timer is not modelled.
- `addDroppedItem` and its position jitter. The drops of a kill are returned instead of being placed on the ground.
- `Math.random()` and `Date.now()` are parameters: loot rolls, the corner pick and offsets, the slime spawn point and ids. The undead's final jittered position is given directly.
- Pets are only the `hasPet` flag.
- The workbench gating of recipes (`requiresWorkbench`) belongs to the crafting menu, not to `doCraft`. It is kept as data only.
- Floating point. All arithmetic is exact, so rounding effects of doubles are not modelled. `Math.PI` is its double value taken as an exact rational.
- `Game.SummonKeepsCap`: stated for a whole-number cap of at least 1. Every summon bonus in the tables is a whole number.
- `Utils.CalculateXPForNextLevel`: `Math.floor(100 * Math.pow(level, 1.5))` is modelled by the exact integer square root of `10000 * level^3`. The double-precision rounding of `Math.pow` is not modelled.
- `Collision.CheckCollision`: the default `checkAgainst` array (all solids, monsters, bosses, minions and the player) is a parameter.
- The slot-onto-itself click in `handleInventorySlotClick` (game.js:504-506) belongs to the inventory UI and is not modelled.

## Findings

| source | as written | input that shows it | evidently intended | confidence | as-written member | corrected member |
|---|---|---|---|---|---|---|
| game.js:656 | The drop chain tests `targetIsBoss`, which `tryAttack` never declares. Reaching that test throws a ReferenceError. | A plains boss (in `bosses`, not in `monsters`) brought to 0 health. It gets no loot, no 250 XP, and the tier-1 walls stay. The same holds for the wolf, the jungle boss, structures, undead and slimes. Nothing catches the error: it leaves `tryAttack`, `update` (game.js:710) and `gameLoop` (game.js:727-728) before `requestAnimationFrame(gameLoop)` runs, so the game loop stops. | `targetIsBoss` means "`bosses` holds the target", the test `targetIsEnemy` already makes. | high; not executed | Game.RewardAsWritten, Game.PlainsBossKillThrowsAsWritten | Game.RewardOf |
| game.js:657 | The removal chain is `if (targetIsMonster) … else if (targetIsBoss)`, so every non-monster kill throws before it is removed. | A tree (in `resources` and `solidObjects`) brought to 0 health. Its wood is handed out and it is already filtered out of `solidObjects`, but the error comes before it is removed from `resources`. Nothing catches the error, so the game loop stops as in the row above. | Each kill is removed from the array holding it. | high; not executed | Game.RemovalAsWritten, Game.TreeKillThrowsAsWritten | Game.RemovalPool |
| utils.js:125-128 | The "not the same corner twice" filter compares the corners with `wolf.targetCorner`, but that field only ever holds the clamped, offset point (utils.js:139-142), never a corner. | The forest wolf (radius 50, config.js:144; spawned with `targetCorner: null`, game.js:612) after its first pick. Its target x lies in [50, FOREST_X_END - 50], so it matches no corner, nothing is filtered out, and the next pick may choose the same corner again. | The chosen corner is remembered and the next pick avoids it. | high; not executed | Utils.Wolf.PickNewForestCornerTarget, Utils.TargetIsNoCorner | Utils.Wolf.PickNewForestCornerAvoidingRepeat |
