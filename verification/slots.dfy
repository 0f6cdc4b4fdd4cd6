/** The inventory rules of game.js (481-492) stated on sequences of slots: what adding and
    removing items does to a row of `{type, count}` slots, and the conservation laws that follow.
    The inventory rules do not depend on which item a slot holds, so the item type is a
    parameter here. The player's arrays are updated in place by the methods of `Players.Player`, which are proved
    to produce exactly these sequences. */
module Inventory {
  import opened Wrappers
  import opened Config

  /** One occupied slot: `{type, count}`. An empty slot is `None` (`null`). */
  datatype Slot<T> = Slot(item: T, count: int)

  type Slots<T> = seq<Option<Slot<T>>>

  /** Every occupied slot holds between 1 and MAX_STACK_SIZE units (empty stacks are nulled). */
  predicate ValidSlots<T(==)>(s: Slots<T>) {
    forall k :: 0 <= k < |s| ==> s[k].Some? ==> 1 <= s[k].value.count <= MAX_STACK_SIZE
  }

  predicate Holds<T(==)>(o: Option<Slot<T>>, t: T) { o.Some? && o.value.item == t }

  /** The condition of findItemStackableInventorySlot: a non-full stack of `t`. */
  predicate Stackable<T(==)>(o: Option<Slot<T>>, t: T) { Holds(o, t) && o.value.count < MAX_STACK_SIZE }

  // ---------------------------------------------------------------- sums over slots

  /** What a slot contributes to the three sums the rules are stated with. */
  datatype Metric = Units | StackRoom | Empties

  function Measure<T(==)>(o: Option<Slot<T>>, t: T, m: Metric): int {
    match m
    case Units => if Holds(o, t) then o.value.count else 0
    case StackRoom => if Stackable(o, t) then MAX_STACK_SIZE - o.value.count else 0
    case Empties => if o.None? then 1 else 0
  }

  function SumOf<T(==)>(s: Slots<T>, t: T, m: Metric): (total: int)
    ensures m != Units ==> total >= 0
    decreases |s|
  {
    if s == [] then 0 else SumOf(s[..|s| - 1], t, m) + Measure(s[|s| - 1], t, m)
  }

  /** The number of units of `t` held in a row of slots (one half of getTotalItemCount). */
  function Count<T(==)>(s: Slots<T>, t: T): int { SumOf(s, t, Units) }

  /** How many more units of `t` a row can take: the free space in its non-full stacks of `t`
      plus a full stack per empty slot. */
  function Room<T(==)>(s: Slots<T>, t: T): int { SumOf(s, t, StackRoom) + MAX_STACK_SIZE * SumOf(s, t, Empties) }

  lemma {:induction false} SumUpdate<T>(s: Slots<T>, k: int, v: Option<Slot<T>>, t: T, m: Metric)
    requires 0 <= k < |s|
    ensures SumOf(s[k := v], t, m) == SumOf(s, t, m) - Measure(s[k], t, m) + Measure(v, t, m)
    decreases |s|
  {
    var n := |s| - 1;
    if k == n {
      assert s[k := v][..n] == s[..n];
    } else {
      assert s[k := v][..n] == s[..n][k := v];
      SumUpdate(s[..n], k, v, t, m);
    }
  }

  lemma {:induction false} SumPointwise<T>(a: Slots<T>, b: Slots<T>, t: T, m: Metric)
    requires |a| == |b|
    requires forall k :: 0 <= k < |a| ==> Measure(a[k], t, m) == Measure(b[k], t, m)
    ensures SumOf(a, t, m) == SumOf(b, t, m)
    decreases |a|
  {
    if a != [] {
      SumPointwise(a[..|a| - 1], b[..|b| - 1], t, m);
    }
  }

  lemma {:induction false} Count0WhenAbsent<T>(s: Slots<T>, t: T)
    requires forall k :: 0 <= k < |s| ==> !Holds(s[k], t)
    ensures Count(s, t) == 0
    decreases |s|
  {
    if s != [] {
      Count0WhenAbsent(s[..|s| - 1], t);
    }
  }

  lemma {:induction false} NoStackableNoStackRoom<T>(s: Slots<T>, t: T)
    requires forall k :: 0 <= k < |s| ==> !Stackable(s[k], t)
    ensures SumOf(s, t, StackRoom) == 0
    decreases |s|
  {
    if s != [] {
      NoStackableNoStackRoom(s[..|s| - 1], t);
    }
  }

  // ---------------------------------------------------------------- searches

  /** findItemStackableInventorySlot: the first non-full stack of `t`, or -1. */
  function FirstStackable<T(==)>(s: Slots<T>, t: T): (k: int)
    ensures -1 <= k < |s|
    ensures k == -1 <==> forall j :: 0 <= j < |s| ==> !Stackable(s[j], t)
    ensures k >= 0 ==> Stackable(s[k], t) && forall j :: 0 <= j < k ==> !Stackable(s[j], t)
    decreases |s|
  {
    if s == [] then -1
    else if Stackable(s[0], t) then 0
    else
      var k := FirstStackable(s[1..], t);
      assert forall j :: 1 <= j < |s| ==> s[j] == s[1..][j - 1];
      if k == -1 then -1 else k + 1
  }

  /** findFirstEmptyInventorySlot: the first empty slot, or -1. */
  function FirstEmpty<T(==)>(s: Slots<T>): (k: int)
    ensures -1 <= k < |s|
    ensures k == -1 <==> forall j :: 0 <= j < |s| ==> s[j].Some?
    ensures k >= 0 ==> s[k].None? && forall j :: 0 <= j < k ==> s[j].Some?
    decreases |s|
  {
    if s == [] then -1
    else if s[0].None? then 0
    else
      var k := FirstEmpty(s[1..]);
      assert forall j :: 1 <= j < |s| ==> s[j] == s[1..][j - 1];
      if k == -1 then -1 else k + 1
  }

  function Min(a: int, b: int): int { if a <= b then a else b }

  // ---------------------------------------------------------------- addToInventory

  /** The first loop of addToInventory: while units remain and a non-full stack of `t` exists,
      top up the first such stack. Returns the slots and the units still to place. */
  function TopUp<T(==)>(s: Slots<T>, t: T, rem: int): (r: (Slots<T>, int))
    requires ValidSlots(s)
    ensures |r.0| == |s|
    decreases if rem > 0 then rem else 0
  {
    if rem <= 0 then (s, rem)
    else
      var k := FirstStackable(s, t);
      if k == -1 then (s, rem)
      else
        var add := Min(rem, MAX_STACK_SIZE - s[k].value.count);
        TopUp(s[k := Some(Slot(t, s[k].value.count + add))], t, rem - add)
  }

  /** The second loop: while units remain, put a stack of up to MAX_STACK_SIZE into the first
      empty slot; when there is none, the rest is dropped. */
  function FillEmpty<T(==)>(s: Slots<T>, t: T, rem: int): (r: Slots<T>)
    ensures |r| == |s|
    decreases if rem > 0 then rem else 0
  {
    if rem <= 0 then s
    else
      var k := FirstEmpty(s);
      if k == -1 then s
      else
        var add := Min(rem, MAX_STACK_SIZE);
        FillEmpty(s[k := Some(Slot(t, add))], t, rem - add)
  }

  /** addToInventory (game.js:484-486) on the inventory row. */
  function AddSpec<T(==)>(s: Slots<T>, t: T, count: int): (r: Slots<T>)
    requires ValidSlots(s)
    ensures |r| == |s|
  {
    var (s1, rem) := TopUp(s, t, count);
    FillEmpty(s1, t, rem)
  }

  lemma {:induction false} TopUpShape<T>(s: Slots<T>, t: T, rem: int)
    requires ValidSlots(s)
    ensures var r := TopUp(s, t, rem);
      && ValidSlots(r.0)
      && (rem <= 0 ==> r == (s, rem))
      && (rem > 0 ==> 0 <= r.1 <= rem)
      && (r.1 > 0 ==> forall k :: 0 <= k < |r.0| ==> !Stackable(r.0[k], t))
      && (forall k :: 0 <= k < |s| ==> r.0[k] == s[k] || (Holds(s[k], t) && Holds(r.0[k], t)))
    decreases if rem > 0 then rem else 0
  {
    if rem > 0 {
      var k := FirstStackable(s, t);
      if k != -1 {
        var c := s[k].value.count;
        var add := Min(rem, MAX_STACK_SIZE - c);
        var s' := s[k := Some(Slot(t, c + add))];
        assert ValidSlots(s');
        TopUpShape(s', t, rem - add);
      }
    }
  }

  /** How one metric moves while topping up: units rise and stack room falls by what was placed. */
  function TopUpDelta(m: Metric, placed: int): int {
    match m
    case Units => placed
    case StackRoom => -placed
    case Empties => 0
  }

  lemma TopUpStep<T>(o: Option<Slot<T>>, c: int, add: int, t: T, m: Metric)
    requires Stackable(o, t) && o.value.count == c && 0 <= add <= MAX_STACK_SIZE - c
    ensures Measure(Some(Slot(t, c + add)), t, m) - Measure(o, t, m) == TopUpDelta(m, add)
  {
  }

  lemma {:induction false} TopUpSums<T>(s: Slots<T>, t: T, rem: int, m: Metric)
    requires ValidSlots(s)
    ensures var r := TopUp(s, t, rem);
      SumOf(r.0, t, m) == SumOf(s, t, m) + TopUpDelta(m, rem - r.1)
    decreases if rem > 0 then rem else 0
  {
    if rem > 0 && FirstStackable(s, t) != -1 {
      var s', add := TopUpOnce(s, t, rem, m);
      TopUpSums(s', t, rem - add, m);
    }
  }

  /** One round of the top-up loop, on one metric. */
  lemma TopUpOnce<T>(s: Slots<T>, t: T, rem: int, m: Metric) returns (s': Slots<T>, add: int)
    requires ValidSlots(s) && rem > 0 && FirstStackable(s, t) != -1
    ensures ValidSlots(s') && 0 < add <= rem
    ensures TopUp(s, t, rem) == TopUp(s', t, rem - add)
    ensures SumOf(s', t, m) == SumOf(s, t, m) + TopUpDelta(m, add)
  {
    var k := FirstStackable(s, t);
    var c := s[k].value.count;
    add := Min(rem, MAX_STACK_SIZE - c);
    var v := Some(Slot(t, c + add));
    s' := s[k := v];
    SumUpdate(s, k, v, t, m);
    TopUpStep(s[k], c, add, t, m);
  }

  lemma {:induction false} FillEmptyShape<T>(s: Slots<T>, t: T, rem: int)
    requires ValidSlots(s)
    ensures var r := FillEmpty(s, t, rem);
      && ValidSlots(r)
      && (rem <= 0 ==> r == s)
      && (forall k :: 0 <= k < |s| ==> r[k] == s[k] || (s[k].None? && Holds(r[k], t)))
    decreases if rem > 0 then rem else 0
  {
    if rem > 0 {
      var k := FirstEmpty(s);
      if k != -1 {
        var s' := s[k := Some(Slot(t, Min(rem, MAX_STACK_SIZE)))];
        assert ValidSlots(s');
        FillEmptyShape(s', t, rem - Min(rem, MAX_STACK_SIZE));
      }
    }
  }

  lemma {:induction false} FillEmptySums<T>(s: Slots<T>, t: T, rem: int)
    ensures Count(FillEmpty(s, t, rem), t) == Count(s, t) + (if rem <= 0 then 0 else Min(rem, MAX_STACK_SIZE * SumOf(s, t, Empties)))
    decreases if rem > 0 then rem else 0
  {
    if rem > 0 {
      var k := FirstEmpty(s);
      if k == -1 {
        SumPointwise(s, seq(|s|, j => Some(Slot(t, 1))), t, Empties);
        Zeroes(|s|, t);
      } else {
        var add := Min(rem, MAX_STACK_SIZE);
        var v := Some(Slot(t, add));
        SumUpdate(s, k, v, t, Units);
        SumUpdate(s, k, v, t, Empties);
        FillEmptySums(s[k := v], t, rem - add);
      }
    }
  }

  lemma {:induction false} Zeroes<T>(n: nat, t: T)
    ensures SumOf(seq(n, j => Some(Slot(t, 1))), t, Empties) == 0
    decreases n
  {
    if n > 0 {
      assert seq(n, j => Some(Slot(t, 1)))[..n - 1] == seq(n - 1, j => Some(Slot(t, 1)));
      Zeroes(n - 1, t);
    }
  }

  /** What addToInventory promises: the units of `t` rise by the amount asked for when it fits
      and otherwise by exactly the free room (the excess is discarded); every stack stays within
      1..MAX_STACK_SIZE. */
  lemma AddConserves<T>(s: Slots<T>, t: T, count: int)
    requires ValidSlots(s)
    ensures var r := AddSpec(s, t, count);
      && ValidSlots(r)
      && Count(r, t) == Count(s, t) + (if count <= 0 then 0 else Min(count, Room(s, t)))
  {
    TopUpShape(s, t, count);
    TopUpSums(s, t, count, Units);
    TopUpSums(s, t, count, StackRoom);
    TopUpSums(s, t, count, Empties);
    var (s1, rem) := TopUp(s, t, count);
    FillEmptyShape(s1, t, rem);
    FillEmptySums(s1, t, rem);
    if rem > 0 {
      NoStackableNoStackRoom(s1, t);
    }
  }

  /** Adding touches only empty slots and stacks of `t`, and never empties a slot. */
  lemma AddTouchesOnlyT<T>(s: Slots<T>, t: T, count: int)
    requires ValidSlots(s)
    ensures var r := AddSpec(s, t, count);
      forall k :: 0 <= k < |s| ==> r[k] == s[k] || (Holds(r[k], t) && (s[k].None? || Holds(s[k], t)))
  {
    TopUpShape(s, t, count);
    var (s1, rem) := TopUp(s, t, count);
    FillEmptyShape(s1, t, rem);
  }

  /** Units of any other item are the same before and after adding `t`. */
  lemma AddKeepsOtherItems<T>(s: Slots<T>, t: T, count: int, u: T)
    requires ValidSlots(s) && u != t
    ensures Count(AddSpec(s, t, count), u) == Count(s, u)
  {
    AddTouchesOnlyT(s, t, count);
    OnlyTChanged(s, AddSpec(s, t, count), t, u);
  }

  /** Existing stacks of `t` are topped up before any empty slot is used: if an empty slot was
      filled, every stack of `t` that was already there is now full. */
  lemma AddTopsUpFirst<T>(s: Slots<T>, t: T, count: int)
    requires ValidSlots(s)
    ensures var r := AddSpec(s, t, count);
      forall k, j :: 0 <= k < |s| && 0 <= j < |s| && s[k].None? && r[k].Some? && Holds(s[j], t) ==>
        Holds(r[j], t) && r[j].value.count == MAX_STACK_SIZE
  {
    TopUpShape(s, t, count);
    var (s1, rem) := TopUp(s, t, count);
    FillEmptyShape(s1, t, rem);
    var r := AddSpec(s, t, count);
    forall k, j | 0 <= k < |s| && 0 <= j < |s| && s[k].None? && r[k].Some? && Holds(s[j], t)
      ensures Holds(r[j], t) && r[j].value.count == MAX_STACK_SIZE
    {
      assert s1[k].None?;
      assert rem > 0;
      assert !Stackable(s1[j], t);
    }
  }

  // ---------------------------------------------------------------- removeFromInventory

  function Max0(a: int): int { if a > 0 then a else 0 }

  /** One backwards loop of removeFromInventory over the slots below index `i`: take
      `min(rem, count)` from each stack of `t`, nulling stacks that reach zero. Returns the slots
      and the units still wanted. */
  function DrainDown<T(==)>(s: Slots<T>, t: T, rem: int, i: int): (r: (Slots<T>, int))
    requires 0 <= i <= |s|
    ensures |r.0| == |s|
    decreases i
  {
    if i == 0 || rem <= 0 then (s, rem)
    else if Holds(s[i - 1], t) then
      var c := s[i - 1].value.count;
      var take := Min(rem, c);
      var v := if c - take <= 0 then None else Some(Slot(t, c - take));
      DrainDown(s[i - 1 := v], t, rem - take, i - 1)
    else DrainDown(s, t, rem, i - 1)
  }

  datatype Removal<T> = Removal(inventory: Slots<T>, hotbar: Slots<T>, success: bool)

  /** removeFromInventory (game.js:487-491): drain the inventory back to front, then the hotbar
      back to front if units are still wanted; success means everything asked for was removed. */
  function RemoveSpec<T(==)>(inv: Slots<T>, hot: Slots<T>, t: T, count: int): (r: Removal<T>)
    ensures |r.inventory| == |inv| && |r.hotbar| == |hot|
  {
    var (inv1, rem1) := DrainDown(inv, t, count, |inv|);
    var (hot1, rem2) := if rem1 > 0 then DrainDown(hot, t, rem1, |hot|) else (hot, rem1);
    var removed := count - rem2;
    Removal(inv1, hot1, removed >= count)
  }

  lemma {:induction false} DrainShape<T>(s: Slots<T>, t: T, rem: int, i: int)
    requires ValidSlots(s) && 0 <= i <= |s|
    ensures var r := DrainDown(s, t, rem, i);
      && ValidSlots(r.0)
      && (rem <= 0 ==> r == (s, rem))
      && (forall k :: 0 <= k < |s| ==> OnlyT(s[k], r.0[k], t))
      && (forall k :: i <= k < |s| ==> r.0[k] == s[k])
    decreases i
  {
    if i > 0 && rem > 0 {
      if Holds(s[i - 1], t) {
        var c := s[i - 1].value.count;
        var take := Min(rem, c);
        var v := if c - take <= 0 then None else Some(Slot(t, c - take));
        DrainStepValid(s, i - 1, v, t);
        assert DrainDown(s, t, rem, i) == DrainDown(s[i - 1 := v], t, rem - take, i - 1);
        DrainShape(s[i - 1 := v], t, rem - take, i - 1);
      } else {
        DrainShape(s, t, rem, i - 1);
      }
    }
  }

  lemma {:induction false} DrainOrder<T>(s: Slots<T>, t: T, rem: int, i: int)
    requires ValidSlots(s) && 0 <= i <= |s|
    ensures var r := DrainDown(s, t, rem, i);
      forall k, j :: 0 <= k < j < i && r.0[k] != s[k] && Holds(s[j], t) ==> r.0[j].None?
    decreases i
  {
    if i > 0 && rem > 0 {
      if Holds(s[i - 1], t) {
        var c := s[i - 1].value.count;
        var take := Min(rem, c);
        var v := if c - take <= 0 then None else Some(Slot(t, c - take));
        DrainStepValid(s, i - 1, v, t);
        assert DrainDown(s, t, rem, i) == DrainDown(s[i - 1 := v], t, rem - take, i - 1);
        DrainShape(s[i - 1 := v], t, rem - take, i - 1);
        DrainOrder(s[i - 1 := v], t, rem - take, i - 1);
      } else {
        DrainOrder(s, t, rem, i - 1);
      }
    }
  }

  lemma {:induction false} DrainSums<T>(s: Slots<T>, t: T, rem: int, i: int)
    requires ValidSlots(s) && 0 <= i <= |s|
    ensures var r := DrainDown(s, t, rem, i);
      && (rem > 0 ==> r.1 == Max0(rem - Count(s[..i], t)))
      && Count(r.0, t) == Count(s, t) - (rem - r.1)
    decreases i
  {
    if i == 0 || rem <= 0 {
      assert s[..0] == [];
    } else if Holds(s[i - 1], t) {
      var s', take := DrainOnce(s, t, rem, i);
      UnitsNonNegative(s[..i - 1], t);
      DrainSums(s', t, rem - take, i - 1);
    } else {
      assert s[..i][..i - 1] == s[..i - 1];
      DrainSums(s, t, rem, i - 1);
    }
  }

  lemma DrainStepValid<T>(s: Slots<T>, k: int, v: Option<Slot<T>>, t: T)
    requires ValidSlots(s) && 0 <= k < |s|
    requires v.Some? ==> 1 <= v.value.count <= MAX_STACK_SIZE
    ensures ValidSlots(s[k := v])
  {
  }

  /** One round of the removal loop on a stack of `t`. */
  lemma DrainOnce<T>(s: Slots<T>, t: T, rem: int, i: int) returns (s': Slots<T>, take: int)
    requires ValidSlots(s) && 0 < i <= |s| && rem > 0 && Holds(s[i - 1], t)
    ensures ValidSlots(s') && |s'| == |s|
    ensures take == Min(rem, s[i - 1].value.count) && take > 0
    ensures DrainDown(s, t, rem, i) == DrainDown(s', t, rem - take, i - 1)
    ensures Count(s', t) == Count(s, t) - take
    ensures s'[..i - 1] == s[..i - 1]
    ensures Count(s[..i], t) == Count(s[..i - 1], t) + s[i - 1].value.count
  {
    var c := s[i - 1].value.count;
    take := Min(rem, c);
    var v := if c - take <= 0 then None else Some(Slot(t, c - take));
    s' := s[i - 1 := v];
    SumUpdate(s, i - 1, v, t, Units);
    assert s[..i][..i - 1] == s[..i - 1];
  }

  /** What removeFromInventory promises. It succeeds exactly when the inventory and the hotbar
      together held the units asked for; it takes `min(count, units in the inventory)` from the
      inventory and only the rest from the hotbar; on a shortfall every unit of `t` is gone
      and nothing is given back; slots holding other items are untouched. */
  lemma RemoveConserves<T>(inv: Slots<T>, hot: Slots<T>, t: T, count: int)
    requires ValidSlots(inv) && ValidSlots(hot)
    ensures var r := RemoveSpec(inv, hot, t, count);
      var fromInv := if count <= 0 then 0 else Min(count, Count(inv, t));
      && |r.inventory| == |inv| && |r.hotbar| == |hot|
      && ValidSlots(r.inventory) && ValidSlots(r.hotbar)
      && (r.success <==> count <= Count(inv, t) + Count(hot, t))
      && Count(r.inventory, t) == Count(inv, t) - fromInv
      && Count(r.hotbar, t) == Count(hot, t) - (if count <= 0 then 0 else Min(count - fromInv, Count(hot, t)))
      && (!r.success ==> Count(r.inventory, t) == 0 && Count(r.hotbar, t) == 0)
      && (count <= Count(inv, t) ==> r.hotbar == hot)
      && (forall k :: 0 <= k < |inv| ==> OnlyT(inv[k], r.inventory[k], t))
      && (forall k :: 0 <= k < |hot| ==> OnlyT(hot[k], r.hotbar[k], t))
  {
    assert inv[..|inv|] == inv;
    assert hot[..|hot|] == hot;
    UnitsNonNegative(inv, t);
    UnitsNonNegative(hot, t);
    DrainShape(inv, t, count, |inv|);
    DrainSums(inv, t, count, |inv|);
    var (inv1, rem1) := DrainDown(inv, t, count, |inv|);
    if rem1 > 0 {
      DrainShape(hot, t, rem1, |hot|);
      DrainSums(hot, t, rem1, |hot|);
    }
  }

  /** Units of any other item are the same before and after removing `t`. */
  lemma RemoveKeepsOtherItems<T>(inv: Slots<T>, hot: Slots<T>, t: T, count: int, u: T)
    requires ValidSlots(inv) && ValidSlots(hot) && u != t
    ensures var r := RemoveSpec(inv, hot, t, count);
      Count(r.inventory, u) == Count(inv, u) && Count(r.hotbar, u) == Count(hot, u)
  {
    DrainShape(inv, t, count, |inv|);
    var (inv1, rem1) := DrainDown(inv, t, count, |inv|);
    OnlyTChanged(inv, inv1, t, u);
    if rem1 > 0 {
      DrainShape(hot, t, rem1, |hot|);
      OnlyTChanged(hot, DrainDown(hot, t, rem1, |hot|).0, t, u);
    }
  }

  /** A slot left as it was, or one that holds nothing but `t` both before and after. */
  predicate OnlyT<T(==)>(before: Option<Slot<T>>, after: Option<Slot<T>>, t: T) {
    after == before || ((before.None? || Holds(before, t)) && (after.None? || Holds(after, t)))
  }

  /** A row whose changed slots held `t` before or after has as many units of any other item. */
  lemma {:induction false} OnlyTChanged<T>(a: Slots<T>, b: Slots<T>, t: T, u: T)
    requires |a| == |b| && u != t
    requires forall k :: 0 <= k < |a| ==> OnlyT(a[k], b[k], t)
    ensures Count(b, u) == Count(a, u)
    decreases |a|
  {
    if a != [] {
      var n := |a| - 1;
      assert OnlyT(a[n], b[n], t);
      OnlyTChanged(a[..n], b[..n], t, u);
    }
  }

  /** Slots are drained from the highest index down: a stack is touched only after every stack
      of `t` above it in the same row has been emptied. */
  lemma RemoveBackToFront<T>(inv: Slots<T>, hot: Slots<T>, t: T, count: int)
    requires ValidSlots(inv) && ValidSlots(hot)
    ensures var r := RemoveSpec(inv, hot, t, count);
      && (forall k, j :: 0 <= k < j < |inv| && r.inventory[k] != inv[k] && Holds(inv[j], t) ==> r.inventory[j].None?)
      && (forall k, j :: 0 <= k < j < |hot| && r.hotbar[k] != hot[k] && Holds(hot[j], t) ==> r.hotbar[j].None?)
      && (r.hotbar != hot ==> forall k :: 0 <= k < |inv| ==> !Holds(r.inventory[k], t))
  {
    assert inv[..|inv|] == inv;
    assert hot[..|hot|] == hot;
    DrainShape(inv, t, count, |inv|);
    DrainOrder(inv, t, count, |inv|);
    DrainSums(inv, t, count, |inv|);
    var (inv1, rem1) := DrainDown(inv, t, count, |inv|);
    if rem1 > 0 {
      DrainShape(hot, t, rem1, |hot|);
      DrainOrder(hot, t, rem1, |hot|);
      AbsentWhenCount0(inv1, t);
    }
  }

  lemma {:induction false} AbsentWhenCount0<T>(s: Slots<T>, t: T)
    requires ValidSlots(s) && Count(s, t) == 0
    ensures forall k :: 0 <= k < |s| ==> !Holds(s[k], t)
    decreases |s|
  {
    if s != [] {
      var n := |s| - 1;
      assert ValidSlots(s[..n]);
      assert SumOf(s[..n], t, Units) >= 0 by { UnitsNonNegative(s[..n], t); }
      AbsentWhenCount0(s[..n], t);
    }
  }

  /** A row holds no units of `t` exactly when no slot holds `t`; the count is never negative. */
  lemma CountZeroIffAbsent<T>(s: Slots<T>, t: T)
    requires ValidSlots(s)
    ensures Count(s, t) >= 0
    ensures Count(s, t) == 0 <==> forall k :: 0 <= k < |s| ==> !Holds(s[k], t)
  {
    UnitsNonNegative(s, t);
    if Count(s, t) == 0 {
      AbsentWhenCount0(s, t);
    }
    if forall k :: 0 <= k < |s| ==> !Holds(s[k], t) {
      Count0WhenAbsent(s, t);
    }
  }

  lemma {:induction false} UnitsNonNegative<T>(s: Slots<T>, t: T)
    requires ValidSlots(s)
    ensures Count(s, t) >= 0
    decreases |s|
  {
    if s != [] {
      UnitsNonNegative(s[..|s| - 1], t);
    }
  }
}
