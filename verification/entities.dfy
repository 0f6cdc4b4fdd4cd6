/** The world objects of game.js (resources, placed structures, monsters, bosses, minions, walls
    and the player) as one record type; the game keeps them in arrays such as `solidObjects`,
    `walls`, `monsters` and `resources`. */
module Entities {
  import opened Wrappers
  import opened Config

  /** What an object is: its `type` string, or `isWall`, or the player. */
  datatype Kind =
    | ResourceKind(item: Item)   // a natural resource: tree, rock, cactus, bone_tree
    | PlacedKind(item: Item)     // a structure placed by the player (`isPlaced: true`)
    | MonsterKind
    | BossKind(boss: BossType)
    | UndeadKind                 // type 'undead_minion'
    | SlimeKind                  // type 'summoned_slime'
    | WallKind(tier: int)        // `isWall: true` with its `tier`
    | PlayerKind
  {
    /** The object's `type` is the ITEM_DATA entry `i`. */
    predicate IsItem(i: Item) { (ResourceKind? || PlacedKind?) && item == i }
  }

  /** A world object. `width`/`height` are meaningful for walls only; `radius` and `health` are
      `None` where the object has no numeric property of that name (a wall's `health: Infinity`
      is never consulted, because every test on walls looks at `isWall` first); `damage` is the
      attack strength of a summoned minion. */
  datatype Body = Body(
    id: string,
    kind: Kind,
    x: real,
    y: real,
    width: real,
    height: real,
    radius: Option<real>,
    isSolid: bool,
    health: Option<real>,
    damage: Option<real>)
  {
    predicate IsWall() { kind.WallKind? }
    predicate IsPlaced() { kind.PlacedKind? }
    /** The object's `type` when it is an ITEM_DATA entry. */
    predicate IsItem(i: Item) { kind.IsItem(i) }
  }

  /** The player's fixed id. */
  const PLAYER_ID: string := "player"

  /** `arr.filter(o => o.id !== id)`. */
  function WithoutId(s: seq<Body>, id: string): (r: seq<Body>)
    ensures |r| <= |s|
    ensures forall k :: 0 <= k < |r| ==> r[k].id != id && r[k] in s
    ensures forall b :: b in s && b.id != id ==> b in r
  {
    if s == [] then []
    else if s[0].id == id then WithoutId(s[1..], id)
    else [s[0]] + WithoutId(s[1..], id)
  }

  /** Filtering by id keeps the order of what stays: filtering two parts and joining them is
      filtering the whole. */
  lemma {:induction false} WithoutIdSplits(s1: seq<Body>, s2: seq<Body>, id: string)
    ensures WithoutId(s1 + s2, id) == WithoutId(s1, id) + WithoutId(s2, id)
    decreases |s1|
  {
    if s1 == [] {
      assert s1 + s2 == s2;
    } else {
      assert (s1 + s2)[0] == s1[0];
      assert (s1 + s2)[1..] == s1[1..] + s2;
      WithoutIdSplits(s1[1..], s2, id);
    }
  }

  /** Replaces every object carrying `b.id` by `b`: a JavaScript object shared between several
      arrays is one record here, so a change to it is applied wherever its id appears. */
  function Replace(s: seq<Body>, b: Body): (r: seq<Body>)
    ensures |r| == |s|
    ensures forall k :: 0 <= k < |s| ==> r[k] == (if s[k].id == b.id then b else s[k])
  {
    if s == [] then [] else [if s[0].id == b.id then b else s[0]] + Replace(s[1..], b)
  }
}
