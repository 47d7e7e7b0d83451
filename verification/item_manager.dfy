// Pickups (src/systems/ItemManager.ts): every frame each active item is
// pulled toward the player when it is closer than 60 and otherwise falls at
// 100 px/s; an item closer than 20 is collected, and one below the field is
// put away. Collecting adds power, score, a life or a bomb, each clamped.
//
// Items are Phaser sprites; here each is an Item value in the manager's
// `items` sequence. Their positions are advanced by Phaser's physics, so
// the model only sets velocities. Distances are compared squared, as in
// CollisionSystem.Near. The collect effect (a circle and its tween) is not
// modelled.

module ItemManager {

  import opened Config
  import opened Emissions
  import GameScene
  import CollisionSystem

  /** The four kinds of item (the `itemType` data of a sprite). */
  datatype ItemType = Power | Point | Life | Bomb

  /** One item sprite: position, velocity, kind, and its active/visible flags. */
  datatype Item = Item(x: real, y: real, vx: real, vy: real, kind: ItemType, active: bool, visible: bool)

  function Min(a: int, b: int): int {
    if a < b then a else b
  }

  /** What collecting an item of kind `k` does to the run. */
  function Pickup(s: GameScene.RunState, k: ItemType): GameScene.RunState {
    match k
    case Power => GameScene.Scored(s.(power := Min(100, s.power + 1)), 100)
    case Point => GameScene.Scored(s, 500)
    case Life => s.(lives := Min(8, s.lives + 1))
    case Bomb => s.(bombs := Min(8, s.bombs + 1))
  }

  /** setActive(false) and setVisible(false); the velocity is kept. */
  function Hidden(it: Item): Item {
    it.(active := false, visible := false)
  }

  /** The pull: toward the player at 200 px/s within 60, else straight down at 100. */
  function Pulled(trig: Trig, it: Item, px: real, py: real): Item {
    if CollisionSystem.Near(it.x, it.y, px, py, 60.0) then
      var a := Rad(trig.atan2(py - it.y, px - it.x));
      it.(vx := trig.cos(a) * 200.0, vy := trig.sin(a) * 200.0)
    else it.(vx := 0.0, vy := 100.0)
  }

  /** An item that this frame's update collects. */
  predicate Collectable(it: Item, px: real, py: real) {
    it.active && CollisionSystem.Near(it.x, it.y, px, py, 20.0)
  }

  /** An item's turn in `update`: skipped if inactive; otherwise pulled,
      then collected when closer than 20, then put away when below
      GAME_HEIGHT + 20. */
  function Tended(trig: Trig, it: Item, px: real, py: real): Item {
    if !it.active then it
    else
      var pulled := Pulled(trig, it, px, py);
      var kept := if Collectable(it, px, py) then Hidden(pulled) else pulled;
      if kept.y > (GAME_HEIGHT + 20) as real then Hidden(kept) else kept
  }

  /** Every item after its turn. */
  function TendedAll(trig: Trig, items: seq<Item>, px: real, py: real): seq<Item> {
    seq(|items|, k requires 0 <= k < |items| => Tended(trig, items[k], px, py))
  }

  /** The run after the collectable items among `items` are picked up, in order. */
  function Collect(s: GameScene.RunState, items: seq<Item>, px: real, py: real): GameScene.RunState {
    if items == [] then s
    else
      var last := items[|items| - 1];
      var before := Collect(s, items[..|items| - 1], px, py);
      if Collectable(last, px, py) then Pickup(before, last.kind) else before
  }

  /** The first inactive item, or |items| when every item is active. */
  function FirstFree(items: seq<Item>): (k: nat)
    ensures k <= |items|
    ensures k < |items| ==> !items[k].active
    ensures forall j :: 0 <= j < k ==> items[j].active
  {
    if items == [] || !items[0].active then 0 else 1 + FirstFree(items[1..])
  }

  /** createItem(x, y, k): the first inactive item is reused, or a new one
      appended when every item is active; it is placed at (x, y), given
      kind k, shown, and falls at 50 px/s. */
  function Created(items: seq<Item>, x: real, y: real, k: ItemType): seq<Item> {
    var made := Item(x, y, 0.0, 50.0, k, true, true);
    var slot := FirstFree(items);
    if slot < |items| then items[slot := made] else items + [made]
  }

  class ItemManager {
    const scene: GameScene.GameScene
    var items: seq<Item>

    constructor(scene: GameScene.GameScene)
      ensures this.scene == scene && items == []
    {
      this.scene := scene;
      items := [];
    }

    /** createItem. */
    method CreateItem(x: real, y: real, k: ItemType)
      modifies this
      ensures items == Created(old(items), x, y, k)
    {
      var made := Item(x, y, 0.0, 50.0, k, true, true);
      var slot := 0;
      while slot < |items| && items[slot].active
        invariant 0 <= slot <= |items|
        invariant forall j :: 0 <= j < slot ==> items[j].active
      {
        slot := slot + 1;
      }
      FirstFreeIs(items, slot);
      if slot < |items| {
        items := items[slot := made];
      } else {
        items := items + [made];
      }
    }

    /** collectItem on item i: the pickup, then the item is put away. */
    method CollectItem(i: nat)
      requires i < |items|
      modifies this, scene
      ensures scene.State() == Pickup(old(scene.State()), old(items[i].kind))
      ensures items == old(items)[i := Hidden(old(items[i]))]
      ensures scene.isPaused == old(scene.isPaused)
    {
      var k := items[i].kind;
      match k {
        case Power =>
          scene.power := Min(100, scene.power + 1);
          scene.AddScore(100);
        case Point =>
          scene.AddScore(500);
        case Life =>
          scene.lives := Min(8, scene.lives + 1);
        case Bomb =>
          scene.bombs := Min(8, scene.bombs + 1);
      }
      items := items[i := Hidden(items[i])];
    }

    /** update: each item takes its turn, with the player where it is now. */
    method Update(trig: Trig)
      modifies this, scene
      ensures items == TendedAll(trig, old(items), scene.player.x, scene.player.y)
      ensures scene.State() == Collect(old(scene.State()), old(items), scene.player.x, scene.player.y)
      ensures scene.isPaused == old(scene.isPaused)
    {
      var px := scene.player.x;
      var py := scene.player.y;
      ghost var items0 := items;
      ghost var s0 := scene.State();
      var i := 0;
      while i < |items|
        invariant 0 <= i <= |items| == |items0|
        invariant forall k :: 0 <= k < i ==> items[k] == Tended(trig, items0[k], px, py)
        invariant forall k :: i <= k < |items| ==> items[k] == items0[k]
        invariant scene.State() == Collect(s0, items0[..i], px, py)
        invariant scene.isPaused == old(scene.isPaused)
      {
        var it := items[i];
        if it.active {
          items := items[i := Pulled(trig, it, px, py)];
          if CollisionSystem.Near(it.x, it.y, px, py, 20.0) {
            CollectItem(i);
          }
          if items[i].y > (GAME_HEIGHT + 20) as real {
            items := items[i := Hidden(items[i])];
          }
        }
        assert items0[..i + 1][..i] == items0[..i];
        i := i + 1;
      }
      assert items0[..i] == items0;
    }
  }

  /** The search loop in CreateItem stops at FirstFree. */
  lemma {:induction false} FirstFreeIs(items: seq<Item>, k: nat)
    requires k <= |items|
    requires forall j :: 0 <= j < k ==> items[j].active
    requires k < |items| ==> !items[k].active
    ensures FirstFree(items) == k
  {
    if k > 0 {
      FirstFreeIs(items[1..], k - 1);
    }
  }

  // --------------------------------------------------------------- properties

  /** Each kind changes exactly its own counters: power is raised by one up
      to 100 with 100 points, a point item gives 500 points, a life or a bomb
      is added up to 8. Graze and `over` never change, and the bounds of a
      run are kept. */
  lemma PickupSpec(s: GameScene.RunState, k: ItemType)
    ensures var t := Pickup(s, k);
      t.graze == s.graze && t.over == s.over &&
      (k == Power ==> t == s.(power := if s.power < 100 then s.power + 1 else 100, score := s.score + 100)) &&
      (k == Point ==> t == s.(score := s.score + 500)) &&
      (k == Life ==> t == s.(lives := if s.lives < 8 then s.lives + 1 else 8)) &&
      (k == Bomb ==> t == s.(bombs := if s.bombs < 8 then s.bombs + 1 else 8)) &&
      (GameScene.Sane(s) ==> GameScene.Sane(t))
  {
  }

  /** Picking up any run of items keeps the run's bounds and never lowers
      score, power, lives or bombs of a run within bounds; graze and `over`
      are untouched. */
  lemma {:induction false} CollectSpec(s: GameScene.RunState, items: seq<Item>, px: real, py: real)
    requires GameScene.Sane(s)
    ensures var t := Collect(s, items, px, py);
      GameScene.Sane(t) && t.graze == s.graze && t.over == s.over &&
      t.score >= s.score && t.power >= s.power && t.lives >= s.lives && t.bombs >= s.bombs
  {
    if items != [] {
      CollectSpec(s, items[..|items| - 1], px, py);
      PickupSpec(Collect(s, items[..|items| - 1], px, py), items[|items| - 1].kind);
    }
  }

  /** An inactive item is left alone. An active one keeps its place and
      kind, gets the pull velocity, and stays active exactly when it is
      neither collected nor below GAME_HEIGHT + 20; when it goes, it goes
      invisible too. */
  lemma TendedSpec(trig: Trig, it: Item, px: real, py: real)
    ensures var r := Tended(trig, it, px, py);
      (!it.active ==> r == it) &&
      (it.active ==>
        r.x == it.x && r.y == it.y && r.kind == it.kind &&
        r.vx == Pulled(trig, it, px, py).vx && r.vy == Pulled(trig, it, px, py).vy &&
        (r.active <==> !CollisionSystem.Near(it.x, it.y, px, py, 20.0) && it.y <= (GAME_HEIGHT + 20) as real) &&
        r.visible == (r.active && it.visible))
  {
  }

  /** Within 20 the pull is on (20 < 60), so a collected item was also
      steered toward the player. */
  lemma CollectedWerePulled(trig: Trig, it: Item, px: real, py: real)
    requires Collectable(it, px, py)
    ensures CollisionSystem.Near(it.x, it.y, px, py, 60.0)
    ensures Pulled(trig, it, px, py).vx == trig.cos(Rad(trig.atan2(py - it.y, px - it.x))) * 200.0
  {
  }

  /** After an update no item within 20 of the player, and none below the
      field, is still active. */
  lemma NoneLeftInReach(trig: Trig, items: seq<Item>, px: real, py: real)
    ensures var r := TendedAll(trig, items, px, py);
      forall k :: 0 <= k < |r| ==> !Collectable(r[k], px, py) && (r[k].active ==> r[k].y <= (GAME_HEIGHT + 20) as real)
  {
  }

  /** Items are picked up once: a second update with the player where it
      was collects nothing more. */
  lemma {:induction false} CollectOnce(trig: Trig, s: GameScene.RunState, items: seq<Item>, px: real, py: real)
    ensures Collect(s, TendedAll(trig, items, px, py), px, py) == s
  {
    var r := TendedAll(trig, items, px, py);
    if items != [] {
      var n := |items| - 1;
      assert r[..n] == TendedAll(trig, items[..n], px, py);
      CollectOnce(trig, s, items[..n], px, py);
      assert !Collectable(r[n], px, py);
    }
  }

  /** createItem shows the new item at (x, y) with the given kind, reuses a
      slot exactly when one is inactive (the list then keeps its length and
      every other item), and otherwise grows the list by one. */
  lemma CreatedSpec(items: seq<Item>, x: real, y: real, k: ItemType)
    ensures var r := Created(items, x, y, k);
      var slot := FirstFree(items);
      r[slot] == Item(x, y, 0.0, 50.0, k, true, true) &&
      (|r| == |items| <==> exists j :: 0 <= j < |items| && !items[j].active) &&
      (|r| == |items| + 1 <==> forall j :: 0 <= j < |items| ==> items[j].active) &&
      (forall j :: 0 <= j < |items| && j != slot ==> r[j] == items[j])
  {
  }
}
