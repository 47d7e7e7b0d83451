// The main scene's systems and its frame (src/scenes/GameScene.ts): `create`
// builds the bullet manager, the enemy, item and collision systems and the
// player; `startStage` hands the chosen stage to the enemy manager; `update`
// runs player, bullets, enemies, items and collisions in that order unless
// the game is paused.
//
// A whole frame is Frame: Phaser first fires the invincibility timer when it
// is due and runs the enemies' own updates (the group's runChildUpdate), and
// then calls the scene's update. Once gameOver has been called the scene is
// replaced by the game-over scene, and a paused scene is not stepped at all,
// so such a frame does nothing. Keys, time and the timer's firing are
// parameters; the stage list is an input, because the stage data file is not
// part of this model.
//
// Each phase is specified on the collision snapshot (CollisionSystem.World):
// PlayerTurn, SystemsTurn and the collisions compose to Tick, one update on
// values, and EnemiesTurn is what Phaser does before it.

module GameLoop {

  import opened Config
  import opened Emissions
  import opened Wrappers
  import GameScene
  import Player
  import BulletManager
  import EnemyManager
  import Enemy
  import ItemManager
  import CollisionSystem

  /** stageData.stages.find(s => s.id === id): the first stage with that id. */
  function FindStage(stages: seq<EnemyManager.Stage>, id: int): (r: Option<EnemyManager.Stage>)
    ensures r.Some? ==> r.value in stages && r.value.id == id
    ensures r.None? <==> forall s :: s in stages ==> s.id != id
  {
    if stages == [] then None
    else if stages[0].id == id then Some(stages[0])
    else FindStage(stages[1..], id)
  }

  /** The stage found is the first one with the id. */
  lemma {:induction false} FindStageFirst(stages: seq<EnemyManager.Stage>, id: int, k: nat)
    requires k < |stages| && stages[k].id == id
    requires forall j :: 0 <= j < k ==> stages[j].id != id
    ensures FindStage(stages, id) == Some(stages[k])
  {
    if k > 0 {
      FindStageFirst(stages[1..], id, k - 1);
    }
  }

  /** player.update and the bomb it asks for, on the collision snapshot: the
      player moves, clamped to the field, and fires its volley at the run's
      power when `fires`; a bomb asked for is used, which, when one is left,
      costs it and clears the enemy bullets. */
  function PlayerTurn(w: CollisionSystem.World, bomb: bool, fires: bool): CollisionSystem.World {
    var x := Player.Clamp(w.px, Player.EDGE, Player.MAX_X);
    var y := Player.Clamp(w.py, Player.EDGE, Player.MAX_Y);
    w.(px := x, py := y,
       playerPool := if fires then Player.AfterVolley(w.playerPool, Player.Volley(x, y, w.run.power)) else w.playerPool,
       enemyPool := if bomb && w.run.bombs > 0 then BulletManager.Cleared(w.enemyPool) else w.enemyPool,
       run := if bomb then GameScene.Bombed(w.run) else w.run)
  }

  /** The bullet, enemy and item managers' updates on the snapshot: both
      pools culled, the new enemies' states appended, and the items
      collected with the player where it now is. */
  function SystemsTurn(w: CollisionSystem.World, items: seq<ItemManager.Item>, arrivals: seq<Enemy.EnemyState>): CollisionSystem.World {
    w.(playerPool := BulletManager.CullPlayer(w.playerPool), enemyPool := BulletManager.CullEnemy(w.enemyPool),
       enemies := w.enemies + arrivals, run := ItemManager.Collect(w.run, items, w.px, w.py))
  }

  /** update past the pause check, on the snapshot: the player's turn, the
      managers' (the stage having run for `elapsed`), then the collisions. */
  function Tick(trig: Trig, w: CollisionSystem.World, keys: Player.Keys, fires: bool, items: seq<ItemManager.Item>,
                stage: Option<EnemyManager.Stage>, elapsed: int, spawned: set<int>, d: Difficulty): CollisionSystem.World
  {
    var p := PlayerTurn(w, keys.bombJustDown, fires);
    CollisionSystem.Collide(SystemsTurn(p, items, EnemyManager.Arrivals(trig, stage, elapsed, spawned, p.enemies, d)))
  }

  /** What a frame does before the scene's update, on the snapshot: the
      invincibility timer, firing while pending, ends the invincibility;
      then every active enemy takes its step and its shots go into the
      enemy pool, aimed at the player where it is. */
  function EnemiesTurn(trig: Trig, w: CollisionSystem.World, time: int, delta: int, timerFires: bool): CollisionSystem.World {
    var v := if timerFires && w.timerPending then w.(invincible := false, timerPending := false) else w;
    v.(enemies := EnemyManager.StepAll(trig, w.enemies, time, delta),
       enemyPool := BulletManager.AfterShots(w.enemyPool, EnemyManager.FrameShots(trig, w.enemies, time, delta, w.px, w.py)))
  }

  /** A tick keeps a run within bounds, never undoes a game over and never
      lowers graze; it keeps the enemy pool's size, only appends enemies,
      and leaves the player clamped to the field. */
  lemma TickSettles(trig: Trig, w: CollisionSystem.World, keys: Player.Keys, fires: bool, items: seq<ItemManager.Item>,
                    stage: Option<EnemyManager.Stage>, elapsed: int, spawned: set<int>, d: Difficulty)
    requires GameScene.Sane(w.run)
    ensures var r := Tick(trig, w, keys, fires, items, stage, elapsed, spawned, d);
      GameScene.Sane(r.run) && (w.run.over ==> r.run.over) && w.run.graze <= r.run.graze &&
      |r.enemyPool| == |w.enemyPool| && |r.enemies| >= |w.enemies| &&
      r.px == Player.Clamp(w.px, Player.EDGE, Player.MAX_X) && r.py == Player.Clamp(w.py, Player.EDGE, Player.MAX_Y)
  {
    var p := PlayerTurn(w, keys.bombJustDown, fires);
    GameScene.BombSpec(w.run);
    var q := SystemsTurn(p, items, EnemyManager.Arrivals(trig, stage, elapsed, spawned, p.enemies, d));
    ItemManager.CollectSpec(p.run, items, p.px, p.py);
    CollisionSystem.CollideSettles(q);
  }

  class Game {
    const scene: GameScene.GameScene
    const enemyManager: EnemyManager.EnemyManager
    const itemManager: ItemManager.ItemManager
    const collisionSystem: CollisionSystem.CollisionSystem

    /** The systems all work on this scene, whose run is within bounds. */
    ghost predicate Valid()
      reads this, scene, scene.bullets, enemyManager
    {
      scene.Valid() && enemyManager.Valid() && enemyManager.scene == scene &&
      itemManager.scene == scene && collisionSystem.scene == scene
    }

    /** What the collisions see of the game: the bullets, the enemies' states,
        the run and the player. */
    ghost function Snapshot(): CollisionSystem.World
      reads this, scene, scene.bullets, scene.player, enemyManager, enemyManager.enemies
    {
      CollisionSystem.World(scene.bullets.playerPool, scene.bullets.enemyPool, EnemyManager.States(enemyManager.enemies),
        scene.State(), scene.player.x, scene.player.y, scene.player.isInvincible, scene.player.invincibleTimerPending)
    }

    /** init(data) and create. */
    constructor(d: Option<Difficulty>, stage: Option<int>)
      ensures scene.State() == GameScene.Start && !scene.isPaused
      ensures scene.difficulty == (if d.Some? then d.value else NORMAL)
      ensures scene.currentStage == GameScene.StageOrDefault(stage)
      ensures enemyManager.enemies == [] && enemyManager.currentStage == None && itemManager.items == []
      ensures enemyManager.difficulty == scene.difficulty
      ensures fresh(scene) && fresh(scene.player) && fresh(scene.bullets) && fresh(enemyManager) && fresh(itemManager)
      ensures Valid()
    {
      var s := new GameScene.GameScene(d, stage);
      scene := s;
      enemyManager := new EnemyManager.EnemyManager(s, s.difficulty);
      itemManager := new ItemManager.ItemManager(s);
      collisionSystem := new CollisionSystem.CollisionSystem(s);
    }

    /** startStage, at the time `now` when the stage title has faded: the
        stage with the scene's stage number starts; when there is none,
        nothing happens. */
    method StartStage(stages: seq<EnemyManager.Stage>, now: int)
      requires Valid()
      modifies enemyManager
      ensures Valid()
      ensures FindStage(stages, scene.currentStage).Some? ==>
        enemyManager.currentStage == FindStage(stages, scene.currentStage) &&
        enemyManager.stageStartTime == now && enemyManager.spawnedWaves == {}
      ensures FindStage(stages, scene.currentStage).Some? ==> enemyManager.pending == old(enemyManager.pending)
      ensures FindStage(stages, scene.currentStage).None? ==> unchanged(enemyManager)
      ensures enemyManager.enemies == old(enemyManager.enemies)
    {
      var i := 0;
      while i < |stages| && stages[i].id != scene.currentStage
        invariant 0 <= i <= |stages|
        invariant FindStage(stages, scene.currentStage) == FindStage(stages[i..], scene.currentStage)
      {
        assert stages[i..][1..] == stages[i + 1..];
        i := i + 1;
      }
      if i == |stages| {
        return;
      }
      enemyManager.StartStage(stages[i], now);
    }

    /** GameScene.update: nothing while paused; otherwise the player (and the
        bomb it asks for), the bullets, the enemy manager, the items and the
        collisions, in that order. */
    method Update(trig: Trig, time: int, keys: Player.Keys) returns (ghost spawned: seq<Enemy.Enemy>)
      requires Valid()
      modifies scene, scene.player, scene.bullets, enemyManager, enemyManager.enemies, itemManager
      ensures Valid()
      ensures GameScene.Settles(old(scene.State()), scene.State())
      ensures scene.isPaused == old(scene.isPaused)
      ensures old(scene.isPaused) ==>
        unchanged(scene, scene.player, scene.bullets, enemyManager, itemManager) &&
        forall e :: e in old(enemyManager.enemies) ==> unchanged(e)
      ensures !old(scene.isPaused) ==>
        Ticked(trig, time, keys, old(Snapshot()), old(scene.player.lastShootTime), old(itemManager.items),
               old(enemyManager.currentStage), old(enemyManager.stageStartTime), old(enemyManager.spawnedWaves), old(enemyManager.pending))
      ensures enemyManager.enemies == old(enemyManager.enemies) + spawned
      ensures forall k :: 0 <= k < |spawned| ==> fresh(spawned[k])
    {
      if scene.isPaused {
        return [];
      }
      spawned := Step(trig, time, keys);
    }

    /** What enemyManager.update did to its bookkeeping, the stage having run
        for `time` less its start: the stage and its start are kept, the
        waves reached are recorded and the due waves' staggered spawns are
        scheduled. */
    ghost predicate Scheduled(trig: Trig, time: int, stage0: Option<EnemyManager.Stage>, start0: int, spawned0: set<int>,
                              pending0: seq<EnemyManager.Pending>)
      reads this, enemyManager
    {
      enemyManager.currentStage == stage0 && enemyManager.stageStartTime == start0 &&
      enemyManager.spawnedWaves == EnemyManager.RecordedAfter(stage0, time - start0, spawned0) &&
      enemyManager.pending == EnemyManager.PendingAfter(trig, stage0, time - start0, spawned0, pending0)
    }

    /** The game is as update past the pause check leaves it, from the
        snapshot `w`, the player's last shot at `last`, the items `items`
        and the scheduler's stage, start, recorded waves and pending
        spawns: on the snapshot a Tick, the scheduler's bookkeeping
        Scheduled, the items tended with the player where it now is, and
        the player's velocity, hitbox and last shot as the keys set them. */
    ghost predicate Ticked(trig: Trig, time: int, keys: Player.Keys, w: CollisionSystem.World, last: int, items: seq<ItemManager.Item>,
                           stage0: Option<EnemyManager.Stage>, start0: int, spawned0: set<int>, pending0: seq<EnemyManager.Pending>)
      reads this, scene, scene.bullets, scene.player, enemyManager, enemyManager.enemies, itemManager
    {
      Snapshot() == Tick(trig, w, keys, Player.Fires(keys.shoot, time, last), items, stage0, time - start0, spawned0,
                         enemyManager.difficulty) &&
      Scheduled(trig, time, stage0, start0, spawned0, pending0) &&
      itemManager.items == ItemManager.TendedAll(trig, items, scene.player.x, scene.player.y) &&
      var (mx, my) := Player.Steer(keys);
      scene.player.Controls() ==
        (Player.MoveVelocity(mx, Player.Speed(keys.focus)), Player.MoveVelocity(my, Player.Speed(keys.focus)), keys.focus,
         if Player.Fires(keys.shoot, time, last) then time else last)
    }

    /** The body of update, past the pause check. */
    method Step(trig: Trig, time: int, keys: Player.Keys) returns (ghost spawned: seq<Enemy.Enemy>)
      requires Valid()
      modifies scene, scene.player, scene.bullets, enemyManager, enemyManager.enemies, itemManager
      ensures Valid()
      ensures GameScene.Settles(old(scene.State()), scene.State())
      ensures scene.isPaused == old(scene.isPaused)
      ensures Ticked(trig, time, keys, old(Snapshot()), old(scene.player.lastShootTime), old(itemManager.items),
                     old(enemyManager.currentStage), old(enemyManager.stageStartTime), old(enemyManager.spawnedWaves), old(enemyManager.pending))
      ensures enemyManager.enemies == old(enemyManager.enemies) + spawned
      ensures forall k :: 0 <= k < |spawned| ==> fresh(spawned[k])
    {
      ghost var w0 := Snapshot();
      ghost var fires := Player.Fires(keys.shoot, time, scene.player.lastShootTime);
      PlayerPhase(time, keys);
      ghost var w1 := Snapshot();
      assert w1 == PlayerTurn(w0, keys.bombJustDown, fires);
      spawned := ManagersAndCollisions(trig, time);
      assert Snapshot() == Tick(trig, w0, keys, fires, old(itemManager.items), old(enemyManager.currentStage),
                                time - old(enemyManager.stageStartTime), old(enemyManager.spawnedWaves), enemyManager.difficulty);
    }

    /** The rest of update once the player has moved: the managers' updates,
        then the collisions. */
    method ManagersAndCollisions(trig: Trig, time: int) returns (ghost spawned: seq<Enemy.Enemy>)
      requires Valid()
      modifies scene, scene.player, scene.bullets, enemyManager, enemyManager.enemies, itemManager
      ensures Valid()
      ensures GameScene.Settles(old(scene.State()), scene.State())
      ensures scene.isPaused == old(scene.isPaused)
      ensures Snapshot() == CollisionSystem.Collide(SystemsTurn(old(Snapshot()), old(itemManager.items),
        EnemyManager.Arrivals(trig, old(enemyManager.currentStage), time - old(enemyManager.stageStartTime),
                              old(enemyManager.spawnedWaves), old(Snapshot()).enemies, enemyManager.difficulty)))
      ensures Scheduled(trig, time, old(enemyManager.currentStage), old(enemyManager.stageStartTime), old(enemyManager.spawnedWaves),
                        old(enemyManager.pending))
      ensures itemManager.items == ItemManager.TendedAll(trig, old(itemManager.items), scene.player.x, scene.player.y)
      ensures scene.player.Controls() == old(scene.player.Controls())
      ensures enemyManager.enemies == old(enemyManager.enemies) + spawned
      ensures forall k :: 0 <= k < |spawned| ==> fresh(spawned[k])
    {
      spawned := SystemsPhase(trig, time);
      CollisionPhase();
    }

    /** player.update, with the bomb it may ask for: on the snapshot this is
        PlayerTurn; the player also steers and shows its hitbox when focused,
        and a volley fired sets its last shot time. */
    method PlayerPhase(time: int, keys: Player.Keys)
      requires Valid()
      modifies scene, scene.player, scene.bullets
      ensures Valid()
      ensures GameScene.Settles(old(scene.State()), scene.State())
      ensures scene.isPaused == old(scene.isPaused)
      ensures Snapshot() == PlayerTurn(old(Snapshot()), keys.bombJustDown, Player.Fires(keys.shoot, time, old(scene.player.lastShootTime)))
      ensures scene.player.lastShootTime ==
        if Player.Fires(keys.shoot, time, old(scene.player.lastShootTime)) then time else old(scene.player.lastShootTime)
      ensures var (mx, my) := Player.Steer(keys);
        scene.player.vx == Player.MoveVelocity(mx, Player.Speed(keys.focus)) &&
        scene.player.vy == Player.MoveVelocity(my, Player.Speed(keys.focus))
      ensures scene.player.hitboxVisible == keys.focus
    {
      ghost var s0 := scene.State();
      var bomb := scene.player.Update(time, keys, scene.power, scene.bullets);
      if bomb {
        scene.UseBomb();
        GameScene.BombSpec(s0);
      }
    }

    /** The bullet, enemy and item managers' updates: on the snapshot this is
        SystemsTurn with the enemies update creates; the items are tended
        with the player where it is and the scheduler records what it did. */
    method SystemsPhase(trig: Trig, time: int) returns (ghost spawned: seq<Enemy.Enemy>)
      requires Valid()
      modifies scene, scene.bullets, enemyManager, itemManager
      ensures Valid()
      ensures GameScene.Settles(old(scene.State()), scene.State())
      ensures scene.isPaused == old(scene.isPaused)
      ensures Snapshot() == SystemsTurn(old(Snapshot()), old(itemManager.items),
        EnemyManager.Arrivals(trig, old(enemyManager.currentStage), time - old(enemyManager.stageStartTime),
                              old(enemyManager.spawnedWaves), old(Snapshot()).enemies, enemyManager.difficulty))
      ensures Scheduled(trig, time, old(enemyManager.currentStage), old(enemyManager.stageStartTime), old(enemyManager.spawnedWaves),
                        old(enemyManager.pending))
      ensures itemManager.items == ItemManager.TendedAll(trig, old(itemManager.items), scene.player.x, scene.player.y)
      ensures enemyManager.enemies == old(enemyManager.enemies) + spawned
      ensures forall k :: 0 <= k < |spawned| ==> fresh(spawned[k])
    {
      scene.bullets.Update();
      ghost var s1 := scene.State();
      spawned := EnemyPhase(trig, time);
      itemManager.Update(trig);
      ItemManager.CollectSpec(s1, old(itemManager.items), scene.player.x, scene.player.y);
    }

    /** enemyManager.update: the enemies it creates are in the states
        Arrivals lists, and it records what it did. */
    method EnemyPhase(trig: Trig, time: int) returns (ghost spawned: seq<Enemy.Enemy>)
      requires Valid()
      modifies enemyManager
      ensures Valid()
      ensures EnemyManager.States(enemyManager.enemies) == old(EnemyManager.States(enemyManager.enemies)) +
        EnemyManager.Arrivals(trig, old(enemyManager.currentStage), time - old(enemyManager.stageStartTime),
                              old(enemyManager.spawnedWaves), old(EnemyManager.States(enemyManager.enemies)), enemyManager.difficulty)
      ensures Scheduled(trig, time, old(enemyManager.currentStage), old(enemyManager.stageStartTime), old(enemyManager.spawnedWaves),
                        old(enemyManager.pending))
      ensures enemyManager.enemies == old(enemyManager.enemies) + spawned
      ensures forall k :: 0 <= k < |spawned| ==> fresh(spawned[k])
    {
      ghost var before := enemyManager.enemies;
      ghost var states := EnemyManager.States(before);
      ghost var active0 := EnemyManager.CountActive(before);
      EnemyManager.EmptyGroup(before);
      ghost var stage0, waves0 := enemyManager.currentStage, enemyManager.spawnedWaves;
      ghost var made, boss := enemyManager.Update(trig, time);
      spawned := made + boss;
      EnemyManager.UpdateArrivals(trig, stage0, time - enemyManager.stageStartTime, waves0, active0, states, made, boss,
                                  enemyManager.difficulty);
      EnemyManager.StatesConcat(before, spawned);
    }

    /** collisionSystem.update: on the snapshot, the four sweeps. */
    method CollisionPhase()
      requires Valid()
      modifies scene, scene.player, scene.bullets, enemyManager.enemies
      ensures Valid()
      ensures GameScene.Settles(old(scene.State()), scene.State())
      ensures scene.isPaused == old(scene.isPaused)
      ensures Snapshot() == CollisionSystem.Collide(old(Snapshot()))
      ensures scene.player.Controls() == old(scene.player.Controls())
    {
      ghost var w := Snapshot();
      collisionSystem.Update(Some(enemyManager));
      CollisionSystem.CollideSettles(w);
    }

    /** One frame: the invincibility timer when `timerFires` and it is
        pending, the enemies' own updates, then the scene's update; on the
        snapshot this is EnemiesTurn and then Tick. A game that is over or
        paused is not stepped. */
    method Frame(trig: Trig, time: int, delta: int, keys: Player.Keys, timerFires: bool) returns (ghost spawned: seq<Enemy.Enemy>)
      requires Valid()
      modifies scene, scene.player, scene.bullets, enemyManager, enemyManager.enemies, itemManager
      ensures Valid()
      ensures GameScene.Settles(old(scene.State()), scene.State())
      ensures scene.isPaused == old(scene.isPaused)
      ensures old(scene.over) || old(scene.isPaused) ==>
        unchanged(scene, scene.player, scene.bullets, enemyManager, itemManager) &&
        forall e :: e in old(enemyManager.enemies) ==> unchanged(e)
      ensures !old(scene.over) && !old(scene.isPaused) ==>
        Ticked(trig, time, keys, EnemiesTurn(trig, old(Snapshot()), time, delta, timerFires), old(scene.player.lastShootTime),
               old(itemManager.items), old(enemyManager.currentStage), old(enemyManager.stageStartTime), old(enemyManager.spawnedWaves),
               old(enemyManager.pending))
      ensures enemyManager.enemies == old(enemyManager.enemies) + spawned
      ensures forall k :: 0 <= k < |spawned| ==> fresh(spawned[k])
    {
      if scene.over || scene.isPaused {
        return [];
      }
      spawned := Advance(trig, time, delta, keys, timerFires);
    }

    /** A frame of a game that is neither over nor paused. */
    method Advance(trig: Trig, time: int, delta: int, keys: Player.Keys, timerFires: bool) returns (ghost spawned: seq<Enemy.Enemy>)
      requires Valid() && !scene.isPaused
      modifies scene, scene.player, scene.bullets, enemyManager, enemyManager.enemies, itemManager
      ensures Valid()
      ensures GameScene.Settles(old(scene.State()), scene.State())
      ensures !scene.isPaused
      ensures Ticked(trig, time, keys, EnemiesTurn(trig, old(Snapshot()), time, delta, timerFires), old(scene.player.lastShootTime),
                     old(itemManager.items), old(enemyManager.currentStage), old(enemyManager.stageStartTime), old(enemyManager.spawnedWaves),
                     old(enemyManager.pending))
      ensures enemyManager.enemies == old(enemyManager.enemies) + spawned
      ensures forall k :: 0 <= k < |spawned| ==> fresh(spawned[k])
    {
      EnemiesPhase(trig, time, delta, timerFires);
      spawned := Step(trig, time, keys);
    }

    /** What Phaser runs before the scene's update: the invincibility timer
        when it fires while pending, then the enemies' own updates; on the
        snapshot this is EnemiesTurn. */
    method EnemiesPhase(trig: Trig, time: int, delta: int, timerFires: bool)
      requires Valid()
      modifies scene.player, scene.bullets, enemyManager.enemies
      ensures Valid()
      ensures Snapshot() == EnemiesTurn(trig, old(Snapshot()), time, delta, timerFires)
      ensures scene.player.lastShootTime == old(scene.player.lastShootTime)
    {
      ghost var w0 := Snapshot();
      if timerFires && scene.player.invincibleTimerPending {
        scene.player.InvincibilityEnds();
      }
      enemyManager.UpdateEnemies(trig, time, delta);
    }
  }
}
