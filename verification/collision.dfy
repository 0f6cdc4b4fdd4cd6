/** checkCollision (game.js:566-602): the first object a circle of radius `r` centred at
    (px, py) would run into, circle against circle or circle against a wall's rectangle. */
module Collision {
  import opened Wrappers
  import opened Entities
  import opened Geometry

  /** Whether an object takes part in collisions at all: walls and the player always do, a solid
      object unless its numeric health has run out, a non-solid one only with positive health. */
  predicate ShouldCollide(b: Body) {
    if b.IsWall() then true
    else if b.id == PLAYER_ID then true
    else if b.isSolid then (b.health.Some? ==> b.health.value > 0.0)
    else b.health.Some? && b.health.value > 0.0
  }

  /** The shape test: a wall by the distance to the closest point of its rectangle, any other
      object with a numeric radius by strict centre distance; an object without one never overlaps. */
  predicate Overlaps(r: real, px: real, py: real, b: Body) {
    if b.IsWall() then
      var cx := Clamp(px, b.x, b.x + b.width);
      var cy := Clamp(py, b.y, b.y + b.height);
      DistanceSq(px, py, cx, cy) < r * r
    else
      b.radius.Some? && DistanceSq(px, py, b.x, b.y) < (r + b.radius.value) * (r + b.radius.value)
  }

  /** An entry of `checkAgainst` that stops the mover: present, not the ignored id, colliding,
      and overlapping. */
  predicate Hits(entry: Option<Body>, r: real, px: real, py: real, ignoreId: Option<string>) {
    && entry.Some?
    && Some(entry.value.id) != ignoreId
    && ShouldCollide(entry.value)
    && Overlaps(r, px, py, entry.value)
  }

  /** The first entry that hits, or `None` (`null`) when none does. */
  function CheckCollision(r: real, px: real, py: real, ignoreId: Option<string>, checkAgainst: seq<Option<Body>>): (hit: Option<Body>)
    ensures hit.None? <==> forall k :: 0 <= k < |checkAgainst| ==> !Hits(checkAgainst[k], r, px, py, ignoreId)
    ensures hit.Some? ==> exists k :: 0 <= k < |checkAgainst| && checkAgainst[k] == hit && IsFirstHit(checkAgainst, k, r, px, py, ignoreId)
  {
    if checkAgainst == [] then None
    else if Hits(checkAgainst[0], r, px, py, ignoreId) then
      assert IsFirstHit(checkAgainst, 0, r, px, py, ignoreId);
      checkAgainst[0]
    else
      var rest := CheckCollision(r, px, py, ignoreId, checkAgainst[1..]);
      assert forall k :: 1 <= k < |checkAgainst| ==> checkAgainst[k] == checkAgainst[1..][k - 1];
      if rest.Some? then
        var k :| 0 <= k < |checkAgainst[1..]| && checkAgainst[1..][k] == rest && IsFirstHit(checkAgainst[1..], k, r, px, py, ignoreId);
        assert IsFirstHit(checkAgainst, k + 1, r, px, py, ignoreId);
        rest
      else rest
  }

  /** Entry k hits and no earlier entry does. */
  predicate IsFirstHit(s: seq<Option<Body>>, k: int, r: real, px: real, py: real, ignoreId: Option<string>) {
    && 0 <= k < |s|
    && Hits(s[k], r, px, py, ignoreId)
    && forall j :: 0 <= j < k ==> !Hits(s[j], r, px, py, ignoreId)
  }

  /** The object returned is never the ignored one, and never a solid object whose numeric
      health is used up. */
  lemma CollisionFilters(r: real, px: real, py: real, ignoreId: Option<string>, checkAgainst: seq<Option<Body>>)
    ensures var hit := CheckCollision(r, px, py, ignoreId, checkAgainst);
      hit.Some? ==>
        && Some(hit.value.id) != ignoreId
        && ((hit.value.isSolid && !hit.value.IsWall() && hit.value.id != PLAYER_ID && hit.value.health.Some?)
              ==> hit.value.health.value > 0.0)
  {
    var hit := CheckCollision(r, px, py, ignoreId, checkAgainst);
    if hit.Some? {
      var k :| 0 <= k < |checkAgainst| && checkAgainst[k] == hit && IsFirstHit(checkAgainst, k, r, px, py, ignoreId);
    }
  }

  /** Entries in front of the first hit that do not hit leave the answer as it was. */
  lemma {:induction false} MissesInFrontDoNotMatter(r: real, px: real, py: real, ignoreId: Option<string>, misses: seq<Option<Body>>, rest: seq<Option<Body>>)
    requires forall k :: 0 <= k < |misses| ==> !Hits(misses[k], r, px, py, ignoreId)
    ensures CheckCollision(r, px, py, ignoreId, misses + rest) == CheckCollision(r, px, py, ignoreId, rest)
    decreases |misses|
  {
    if misses != [] {
      assert (misses + rest)[0] == misses[0];
      assert !Hits((misses + rest)[0], r, px, py, ignoreId);
      assert (misses + rest)[1..] == misses[1..] + rest;
      MissesInFrontDoNotMatter(r, px, py, ignoreId, misses[1..], rest);
    } else {
      assert misses + rest == rest;
    }
  }
}
