// The wave scheduler (src/systems/EnemyManager.ts): each wave of the current
// stage spawns once, at the first update whose elapsed stage time reaches its
// spawnTime; a boss spawns whenever the stage has run its duration and no
// enemy is left; every enemy's hp is scaled by the difficulty once, when it
// is created.
//
// The enemies group is the sequence `enemies`: createEnemy appends to it and
// a destroyed enemy stays in it, inactive (Phaser removes it from the group,
// so the group's length is the number of active enemies). Staggered spawns
// (`time.delayedCall`) are the `pending` list; Phaser's clock decides when
// each runs, which is RunPending here. The stage record is an input: the
// stage data file is not part of this model.

module EnemyManager {

  import opened Config
  import opened Emissions
  import opened Wrappers
  import Enemy
  import GameScene
  import BulletManager

  /** One entry of a stage's `enemies` list. */
  datatype Wave = Wave(kind: string, spawnTime: int, count: int, pattern: string)

  /** A stage record (the boss's spell-card list is not read by this code). */
  datatype Stage = Stage(id: int, name: string, duration: int, waves: seq<Wave>, bossName: string, bossHp: real)

  /** The arguments of one createEnemy(x, y, config, movePattern, bulletPattern) call. */
  datatype Spawn = Spawn(x: real, y: real, config: Enemy.EnemyConfig, move: Enemy.MovePattern, bullet: string)

  /** A createEnemy call scheduled with delayedCall(delay, ...). Its x is
      fixed, or (None) drawn with Phaser.Math.Between(50, GAME_WIDTH - 50)
      when the call runs. */
  datatype Pending = Pending(delay: int, x: Option<real>, y: real, config: Enemy.EnemyConfig, move: Enemy.MovePattern, bullet: string)

  /** getEnemyConfig: the fairies and every unknown type are basic enemies,
      the book spirit is an elite. */
  function ConfigFor(kind: string): Enemy.EnemyConfig {
    if kind == "fairy_blue" || kind == "fairy_red" || kind == "fairy_green" then
      Enemy.EnemyConfig(Enemy.Basic, BASIC_HP, ENEMY_BASIC)
    else if kind == "book_spirit" then Enemy.EnemyConfig(Enemy.Elite, ELITE_HP, ENEMY_ELITE)
    else Enemy.EnemyConfig(Enemy.Basic, BASIC_HP, ENEMY_BASIC)
  }

  /** The config spawnBoss builds from the stage's boss record. */
  function BossConfig(stage: Stage): Enemy.EnemyConfig {
    Enemy.EnemyConfig(Enemy.Boss, stage.bossHp, BOSS)
  }

  /** x of enemy i of a 'wave' row of `count`: GAME_WIDTH / (count + 1) * (i + 1). */
  function WaveX(count: int, i: int): real
    requires count >= 1
  {
    GAME_WIDTH as real / (count + 1) as real * (i + 1) as real
  }

  /** Position of enemy i of a 'circle' wave: radius 80 around (GAME_WIDTH / 2, 50). */
  function RingPoint(trig: Trig, count: int, i: int): (real, real)
    requires count >= 1
  {
    Along(trig, GAME_WIDTH as real / 2.0, 50.0, Turn(i as real / count as real), 80.0)
  }

  /** x of enemy i of a 'spiral' wave: angle 4*pi*i/count, radius 50 + 10i
      around GAME_WIDTH / 2. */
  function SpiralX(trig: Trig, count: int, i: int): real
    requires count >= 1
  {
    Along(trig, GAME_WIDTH as real / 2.0, -30.0, Turn(2.0 * (i as real / count as real)), 50.0 + i as real * 10.0).0
  }

  /** The createEnemy calls spawnWave makes at once. */
  function WaveSpawns(trig: Trig, w: Wave): (r: seq<Spawn>)
    ensures |r| == if w.pattern == "wave" || w.pattern == "circle" then Count(w.count) else 0
  {
    var c := ConfigFor(w.kind);
    if w.pattern == "wave" then
      seq(Count(w.count), i requires 0 <= i < Count(w.count) => Spawn(WaveX(w.count, i), -30.0, c, Enemy.Straight, "aimed"))
    else if w.pattern == "circle" then
      seq(Count(w.count), i requires 0 <= i < Count(w.count) =>
        Spawn(RingPoint(trig, w.count, i).0, RingPoint(trig, w.count, i).1, c, Enemy.CircleMove, "spread"))
    else []
  }

  /** The createEnemy calls spawnWave schedules for later. */
  function WaveTimers(trig: Trig, w: Wave): (r: seq<Pending>)
    ensures |r| == if w.pattern == "spiral" || w.pattern == "random" then Count(w.count) else 0
  {
    var c := ConfigFor(w.kind);
    if w.pattern == "spiral" then
      seq(Count(w.count), i requires 0 <= i < Count(w.count) =>
        Pending(i * 300, Some(SpiralX(trig, w.count, i)), -30.0, c, Enemy.WaveMove, "aimed"))
    else if w.pattern == "random" then
      seq(Count(w.count), i requires 0 <= i < Count(w.count) => Pending(i * 500, None, -30.0, c, Enemy.Zigzag, "spread"))
    else []
  }

  /** The spawn a pending call makes, given the x drawn when it runs. */
  function Resolve(p: Pending, draw: int): Spawn {
    Spawn(if p.x.Some? then p.x.value else draw as real, p.y, p.config, p.move, p.bullet)
  }

  /** The boss's spawn: at (GAME_WIDTH / 2, -50), circling, firing circles. */
  function BossSpawn(stage: Stage): Spawn {
    Spawn(GAME_WIDTH as real / 2.0, -50.0, BossConfig(stage), Enemy.CircleMove, "circle")
  }

  /** The state createEnemy leaves a new enemy in: patterns set, and hp (but
      not maxHp) multiplied by the difficulty's ENEMY_HP_MULTIPLIER. */
  function Created(s: Spawn, d: Difficulty): Enemy.EnemyState {
    var e := Enemy.Fresh(s.x, s.y, s.config).(movePattern := s.move, bulletPattern := s.bullet);
    e.(hp := e.hp * Profile(d).enemyHpMultiplier)
  }

  /** Wave i is due at `elapsed` when its time has come and it has not spawned yet. */
  predicate Due(stage: Stage, elapsed: int, spawned: set<int>, i: int)
    requires 0 <= i < |stage.waves|
  {
    elapsed >= stage.waves[i].spawnTime && i !in spawned
  }

  /** The immediate spawns of the due waves among the first n, in order. */
  function DueSpawns(trig: Trig, stage: Stage, elapsed: int, spawned: set<int>, n: nat): seq<Spawn>
    requires n <= |stage.waves|
  {
    if n == 0 then []
    else
      var last := if Due(stage, elapsed, spawned, n - 1) then WaveSpawns(trig, stage.waves[n - 1]) else [];
      DueSpawns(trig, stage, elapsed, spawned, n - 1) + last
  }

  /** The scheduled spawns of the due waves among the first n, in order. */
  function DueTimers(trig: Trig, stage: Stage, elapsed: int, spawned: set<int>, n: nat): seq<Pending>
    requires n <= |stage.waves|
  {
    if n == 0 then []
    else
      var last := if Due(stage, elapsed, spawned, n - 1) then WaveTimers(trig, stage.waves[n - 1]) else [];
      DueTimers(trig, stage, elapsed, spawned, n - 1) + last
  }

  /** The waves among the first n whose time has come. */
  function Reached(stage: Stage, elapsed: int, n: nat): set<int>
    requires n <= |stage.waves|
  {
    set i | 0 <= i < n && elapsed >= stage.waves[i].spawnTime
  }

  /** The boss test of `update`, after the due waves have spawned. */
  predicate BossDue(stage: Stage, elapsed: int, activeBefore: nat, spawnedNow: nat) {
    elapsed >= stage.duration && activeBefore + spawnedNow == 0
  }

  /** How many of the enemies are active: the group's length. It counts
      Enemy objects, whose `active` field the collisions change in place, so
      it reads them; BulletManager.ActiveCount counts bullet values in a
      pool and cannot take these. */
  function CountActive(es: seq<Enemy.Enemy>): (n: nat)
    reads es
    ensures n <= |es|
  {
    if es == [] then 0
    else CountActive(es[..|es| - 1]) + (if es[|es| - 1].active then 1 else 0)
  }

  /** The states of the enemies, in order. */
  ghost function States(es: seq<Enemy.Enemy>): (r: seq<Enemy.EnemyState>)
    reads es
    ensures |r| == |es|
  {
    seq(|es|, i requires 0 <= i < |es| reads es => es[i].State())
  }

  /** One frame of runChildUpdate on a state: active enemies update, others stay. */
  function StepIfActive(trig: Trig, s: Enemy.EnemyState, time: int, delta: int): Enemy.EnemyState {
    if s.active then Enemy.Stepped(trig, s, time, delta) else s
  }

  /** One runChildUpdate pass on the states, enemy by enemy. */
  function StepAll(trig: Trig, states: seq<Enemy.EnemyState>, time: int, delta: int): (r: seq<Enemy.EnemyState>)
    ensures |r| == |states|
  {
    seq(|states|, j requires 0 <= j < |states| => StepIfActive(trig, states[j], time, delta))
  }

  /** The bullets one runChildUpdate pass fires, enemy by enemy. */
  function FrameShots(trig: Trig, states: seq<Enemy.EnemyState>, time: int, delta: int, px: real, py: real): seq<Shot> {
    if states == [] then []
    else
      var s := states[|states| - 1];
      FrameShots(trig, states[..|states| - 1], time, delta, px, py)
        + (if s.active then Enemy.StepShots(trig, s, time, delta, px, py) else [])
  }

  /** Each created enemy is in the state createEnemy gives its spawn. */
  ghost predicate Made(created: seq<Enemy.Enemy>, spawns: seq<Spawn>, d: Difficulty)
    reads created
  {
    |created| == |spawns| && forall k :: 0 <= k < |created| ==> created[k].State() == Created(spawns[k], d)
  }

  /** The states createEnemy gives the spawns, in order. */
  function CreatedAll(spawns: seq<Spawn>, d: Difficulty): (r: seq<Enemy.EnemyState>)
    ensures |r| == |spawns|
  {
    seq(|spawns|, k requires 0 <= k < |spawns| => Created(spawns[k], d))
  }

  /** No enemy is active: the group is empty. */
  predicate NoneActive(states: seq<Enemy.EnemyState>) {
    forall k :: 0 <= k < |states| ==> !states[k].active
  }

  /** The states of the enemies one update creates, the stage having run
      for `elapsed` and the enemies being in the states `before`: the
      immediate spawns of the due waves, in order, then the boss when the
      stage has run its duration, no wave spawned and the group is empty. */
  function Arrivals(trig: Trig, stage: Option<Stage>, elapsed: int, spawned: set<int>, before: seq<Enemy.EnemyState>,
                    d: Difficulty): seq<Enemy.EnemyState>
  {
    if stage.None? then []
    else
      var st := stage.value;
      var spawns := DueSpawns(trig, st, elapsed, spawned, |st.waves|);
      CreatedAll(spawns, d) +
        (if BossDue(st, elapsed, 0, |spawns|) && NoneActive(before) then [Created(BossSpawn(st), d).(shootInterval := 2000)] else [])
  }

  /** The waves recorded once an update at `elapsed` has run. */
  function RecordedAfter(stage: Option<Stage>, elapsed: int, spawned: set<int>): set<int> {
    if stage.None? then spawned else spawned + Reached(stage.value, elapsed, |stage.value.waves|)
  }

  /** The staggered spawns scheduled once an update at `elapsed` has run. */
  function PendingAfter(trig: Trig, stage: Option<Stage>, elapsed: int, spawned: set<int>, pending: seq<Pending>): seq<Pending> {
    if stage.None? then pending else pending + DueTimers(trig, stage.value, elapsed, spawned, |stage.value.waves|)
  }

  class EnemyManager {
    const scene: GameScene.GameScene
    const difficulty: Difficulty
    var enemies: seq<Enemy.Enemy>
    var stageStartTime: int
    var currentStage: Option<Stage>
    var spawnedWaves: set<int>
    var pending: seq<Pending>

    /** The enemies are distinct objects of this manager's scene. */
    ghost predicate Valid()
      reads this
    {
      (forall i, j :: 0 <= i < j < |enemies| ==> enemies[i] != enemies[j]) &&
      (forall i :: 0 <= i < |enemies| ==> enemies[i].scene == scene)
    }

    constructor(scene: GameScene.GameScene, difficulty: Difficulty)
      ensures this.scene == scene && this.difficulty == difficulty
      ensures enemies == [] && stageStartTime == 0 && currentStage == None
      ensures spawnedWaves == {} && pending == []
      ensures Valid()
    {
      this.scene := scene;
      this.difficulty := difficulty;
      enemies := [];
      stageStartTime := 0;
      currentStage := None;
      spawnedWaves := {};
      pending := [];
    }

    /** startStage(stage), `now` being the scene clock. Pending calls are not cancelled. */
    method StartStage(stage: Stage, now: int)
      modifies this
      ensures currentStage == Some(stage) && stageStartTime == now && spawnedWaves == {}
      ensures enemies == old(enemies) && pending == old(pending)
    {
      currentStage := Some(stage);
      stageStartTime := now;
      spawnedWaves := {};
    }

    /** createEnemy. */
    method CreateEnemy(s: Spawn) returns (e: Enemy.Enemy)
      requires Valid()
      modifies this
      ensures Valid()
      ensures fresh(e) && enemies == old(enemies) + [e]
      ensures e.State() == Created(s, difficulty) && e.scene == scene
      ensures stageStartTime == old(stageStartTime) && currentStage == old(currentStage)
      ensures spawnedWaves == old(spawnedWaves) && pending == old(pending)
    {
      e := new Enemy.Enemy(scene, s.x, s.y, s.config);
      e.SetMovePattern(s.move);
      e.SetBulletPattern(s.bullet);
      e.hp := e.hp * Profile(difficulty).enemyHpMultiplier;
      enemies := enemies + [e];
    }

    /** The createEnemy loop of a 'wave' or 'circle' wave. */
    method CreateAll(spawns: seq<Spawn>) returns (ghost created: seq<Enemy.Enemy>)
      requires Valid()
      modifies this
      ensures Valid()
      ensures enemies == old(enemies) + created && Made(created, spawns, difficulty)
      ensures forall k :: 0 <= k < |created| ==> fresh(created[k])
      ensures stageStartTime == old(stageStartTime) && currentStage == old(currentStage)
      ensures spawnedWaves == old(spawnedWaves) && pending == old(pending)
    {
      created := [];
      var i := 0;
      while i < |spawns|
        invariant 0 <= i <= |spawns| && |created| == i
        invariant Valid()
        invariant enemies == old(enemies) + created
        invariant Made(created, spawns[..i], difficulty)
        invariant forall k :: 0 <= k < i ==> fresh(created[k])
        invariant stageStartTime == old(stageStartTime) && currentStage == old(currentStage)
        invariant spawnedWaves == old(spawnedWaves) && pending == old(pending)
      {
        var e := CreateEnemy(spawns[i]);
        assert spawns[..i + 1] == spawns[..i] + [spawns[i]];
        MadeConcat(created, [e], spawns[..i], [spawns[i]], difficulty);
        created := created + [e];
        i := i + 1;
      }
      assert spawns[..i] == spawns;
    }

    /** spawnWave: the immediate creations, and the staggered ones scheduled. */
    method SpawnWave(trig: Trig, w: Wave) returns (ghost created: seq<Enemy.Enemy>)
      requires Valid()
      modifies this
      ensures Valid()
      ensures enemies == old(enemies) + created && Made(created, WaveSpawns(trig, w), difficulty)
      ensures forall k :: 0 <= k < |created| ==> fresh(created[k])
      ensures pending == old(pending) + WaveTimers(trig, w)
      ensures stageStartTime == old(stageStartTime) && currentStage == old(currentStage)
      ensures spawnedWaves == old(spawnedWaves)
    {
      if w.pattern == "wave" || w.pattern == "circle" {
        created := CreateAll(WaveSpawns(trig, w));
      } else {
        created := [];
        pending := pending + WaveTimers(trig, w);
      }
    }

    /** spawnBoss. */
    method SpawnBoss() returns (ghost boss: Option<Enemy.Enemy>)
      requires Valid()
      modifies this
      ensures Valid()
      ensures currentStage.None? ==> boss == None && enemies == old(enemies)
      ensures currentStage.Some? ==>
        boss.Some? && fresh(boss.value) && enemies == old(enemies) + [boss.value] &&
        boss.value.State() == Created(BossSpawn(currentStage.value), difficulty).(shootInterval := 2000)
      ensures stageStartTime == old(stageStartTime) && currentStage == old(currentStage)
      ensures spawnedWaves == old(spawnedWaves) && pending == old(pending)
    {
      if currentStage.None? {
        return None;
      }
      var e := CreateEnemy(BossSpawn(currentStage.value));
      e.SetShootInterval(2000);
      boss := Some(e);
    }

    /** getActiveEnemyCount: the group's length. */
    method GetActiveEnemyCount() returns (count: nat)
      ensures count == CountActive(enemies)
    {
      count := 0;
      var i := 0;
      while i < |enemies|
        invariant 0 <= i <= |enemies|
        invariant count == CountActive(enemies[..i])
      {
        assert enemies[..i + 1][..i] == enemies[..i];
        if enemies[i].active {
          count := count + 1;
        }
        i := i + 1;
      }
      assert enemies[..i] == enemies;
    }

    /** update(time): spawn the due waves in index order and record them, then
        spawn a boss if the stage has run its duration and the group is empty. */
    method Update(trig: Trig, time: int) returns (ghost spawned: seq<Enemy.Enemy>, ghost boss: seq<Enemy.Enemy>)
      requires Valid()
      modifies this
      ensures Valid()
      ensures currentStage == old(currentStage) && stageStartTime == old(stageStartTime)
      ensures enemies == old(enemies) + spawned + boss
      ensures forall k :: 0 <= k < |spawned| ==> fresh(spawned[k])
      ensures forall k :: 0 <= k < |boss| ==> fresh(boss[k])
      ensures currentStage.None? ==> spawned == [] && boss == [] && spawnedWaves == old(spawnedWaves) && pending == old(pending)
      ensures currentStage.Some? ==>
        var st := currentStage.value;
        var elapsed := time - stageStartTime;
        var spawns := DueSpawns(trig, st, elapsed, old(spawnedWaves), |st.waves|);
        var due := BossDue(st, elapsed, old(CountActive(enemies)), |spawns|);
        spawnedWaves == old(spawnedWaves) + Reached(st, elapsed, |st.waves|) &&
        pending == old(pending) + DueTimers(trig, st, elapsed, old(spawnedWaves), |st.waves|) &&
        Made(spawned, spawns, difficulty) &&
        |boss| == (if due then 1 else 0) &&
        (due ==> boss[0].State() == Created(BossSpawn(st), difficulty).(shootInterval := 2000))
    {
      spawned, boss := [], [];
      if currentStage.None? {
        return;
      }
      var stage := currentStage.value;
      var elapsed := time - stageStartTime;
      ghost var enemies0 := enemies;
      ghost var active0 := CountActive(enemies);
      spawned := SpawnDue(trig, stage, elapsed);
      ghost var spawns := DueSpawns(trig, stage, elapsed, old(spawnedWaves), |stage.waves|);
      assert CountActive(enemies0) == active0;
      CreatedAreActive(enemies0, spawned, spawns, difficulty);
      assert CountActive(enemies) == active0 + |spawns|;
      boss := SpawnBossIfDue(stage, elapsed, spawned, spawns);
    }

    /** How far update's wave loop has got: the waves before `index` whose
        time has come are recorded, and the due ones among them have
        scheduled their timers and created `created`. */
    ghost predicate Progress(trig: Trig, stage: Stage, elapsed: int, spawned0: set<int>, enemies0: seq<Enemy.Enemy>,
                             pending0: seq<Pending>, index: nat, created: seq<Enemy.Enemy>)
      reads this, created
    {
      index <= |stage.waves| &&
      spawnedWaves == spawned0 + Reached(stage, elapsed, index) &&
      pending == pending0 + DueTimers(trig, stage, elapsed, spawned0, index) &&
      enemies == enemies0 + created &&
      Made(created, DueSpawns(trig, stage, elapsed, spawned0, index), difficulty)
    }

    /** Progress, with the manager valid and its stage and start time those of the loop's start. */
    ghost predicate Spawning(trig: Trig, stage: Stage, elapsed: int, spawned0: set<int>, enemies0: seq<Enemy.Enemy>,
                             pending0: seq<Pending>, stage0: Option<Stage>, start0: int, index: nat, created: seq<Enemy.Enemy>)
      reads this, created
    {
      Valid() && currentStage == stage0 && stageStartTime == start0 &&
      Progress(trig, stage, elapsed, spawned0, enemies0, pending0, index, created)
    }

    /** The boss check of update. */
    method SpawnBossIfDue(stage: Stage, elapsed: int, ghost done: seq<Enemy.Enemy>, ghost spawns: seq<Spawn>)
      returns (ghost boss: seq<Enemy.Enemy>)
      requires Valid() && currentStage == Some(stage)
      requires Made(done, spawns, difficulty)
      modifies this
      ensures Valid() && Made(done, spawns, difficulty)
      ensures var due := elapsed >= stage.duration && old(CountActive(enemies)) == 0;
        |boss| == (if due then 1 else 0) &&
        (due ==> fresh(boss[0]) && boss[0].State() == Created(BossSpawn(stage), difficulty).(shootInterval := 2000))
      ensures enemies == old(enemies) + boss
      ensures currentStage == old(currentStage) && stageStartTime == old(stageStartTime)
      ensures spawnedWaves == old(spawnedWaves) && pending == old(pending)
    {
      boss := [];
      var count := GetActiveEnemyCount();
      if elapsed >= stage.duration && count == 0 {
        var b := SpawnBoss();
        boss := [b.value];
      }
    }

    /** The wave loop of update: every due wave spawns, in index order, and is recorded. */
    method SpawnDue(trig: Trig, stage: Stage, elapsed: int) returns (ghost created: seq<Enemy.Enemy>)
      requires Valid()
      modifies this
      ensures Spawning(trig, stage, elapsed, old(spawnedWaves), old(enemies), old(pending), old(currentStage), old(stageStartTime),
                       |stage.waves|, created)
      ensures forall k :: 0 <= k < |created| ==> fresh(created[k])
    {
      created := [];
      SpawningStarts(trig, stage, elapsed);
      var index := 0;
      while index < |stage.waves|
        invariant 0 <= index <= |stage.waves|
        invariant Spawning(trig, stage, elapsed, old(spawnedWaves), old(enemies), old(pending), old(currentStage), old(stageStartTime),
                           index, created)
        invariant fresh(created)
      {
        ghost var before := created;
        var more := SpawnStep(trig, stage, elapsed, index, old(spawnedWaves), old(enemies), old(pending), old(currentStage),
                              old(stageStartTime), created);
        created := created + more;
        index := index + 1;
      }
    }

    /** Before the wave loop no wave has been reached and nothing created. */
    lemma SpawningStarts(trig: Trig, stage: Stage, elapsed: int)
      requires Valid()
      ensures Spawning(trig, stage, elapsed, spawnedWaves, enemies, pending, currentStage, stageStartTime, 0, [])
    {
      assert Reached(stage, elapsed, 0) == {};
    }

    /** One turn of update's wave loop: wave `index` spawns if its time has
        come and it has not spawned yet, and is then recorded. */
    method SpawnStep(trig: Trig, stage: Stage, elapsed: int, index: nat, ghost spawned0: set<int>, ghost enemies0: seq<Enemy.Enemy>,
                     ghost pending0: seq<Pending>, ghost stage0: Option<Stage>, ghost start0: int, ghost done: seq<Enemy.Enemy>)
      returns (ghost more: seq<Enemy.Enemy>)
      requires index < |stage.waves|
      requires Spawning(trig, stage, elapsed, spawned0, enemies0, pending0, stage0, start0, index, done)
      modifies this
      ensures Spawning(trig, stage, elapsed, spawned0, enemies0, pending0, stage0, start0, index + 1, done + more)
      ensures fresh(more)
    {
      var wave := stage.waves[index];
      assert index !in Reached(stage, elapsed, index);
      if elapsed >= wave.spawnTime && index !in spawnedWaves {
        more := SpawnFor(trig, stage, elapsed, index, spawned0, enemies0, pending0, done);
      } else {
        more := [];
        DueStep(trig, stage, elapsed, spawned0, index);
        ReachedStep(stage, elapsed, index);
        assert done + more == done;
      }
    }

    /** The spawning branch of SpawnStep: wave `index` is due, so it spawns
        and is recorded. */
    method SpawnFor(trig: Trig, stage: Stage, elapsed: int, index: nat, ghost spawned0: set<int>, ghost enemies0: seq<Enemy.Enemy>,
                    ghost pending0: seq<Pending>, ghost done: seq<Enemy.Enemy>)
      returns (ghost more: seq<Enemy.Enemy>)
      requires index < |stage.waves| && Due(stage, elapsed, spawned0, index)
      requires Valid() && Progress(trig, stage, elapsed, spawned0, enemies0, pending0, index, done)
      modifies this
      ensures Valid() && Progress(trig, stage, elapsed, spawned0, enemies0, pending0, index + 1, done + more)
      ensures currentStage == old(currentStage) && stageStartTime == old(stageStartTime)
      ensures fresh(more)
    {
      var wave := stage.waves[index];
      DueStep(trig, stage, elapsed, spawned0, index);
      ReachedStep(stage, elapsed, index);
      more := SpawnWave(trig, wave);
      spawnedWaves := spawnedWaves + {index};
      Regroup(enemies0, done, more);
      Regroup(pending0, DueTimers(trig, stage, elapsed, spawned0, index), WaveTimers(trig, wave));
      MadeConcat(done, more, DueSpawns(trig, stage, elapsed, spawned0, index), WaveSpawns(trig, wave), difficulty);
    }

    /** A pending delayed call runs: it is removed and its enemy created, the
        x drawn (when it was not fixed) being `draw`. */
    method RunPending(k: nat, draw: int) returns (e: Enemy.Enemy)
      requires Valid() && k < |pending|
      requires 50 <= draw <= GAME_WIDTH - 50
      modifies this
      ensures Valid()
      ensures pending == old(pending[..k] + pending[k + 1..])
      ensures fresh(e) && enemies == old(enemies) + [e]
      ensures e.State() == Created(Resolve(old(pending[k]), draw), difficulty)
      ensures spawnedWaves == old(spawnedWaves) && currentStage == old(currentStage)
    {
      var p := pending[k];
      pending := pending[..k] + pending[k + 1..];
      e := CreateEnemy(Resolve(p, draw));
    }

    /** Phaser's runChildUpdate: each active enemy's update, in group order. */
    method UpdateEnemies(trig: Trig, time: int, delta: int)
      requires Valid() && scene.bullets.Valid()
      modifies enemies, scene.bullets
      ensures scene.bullets.Valid()
      ensures forall j :: 0 <= j < |enemies| ==>
        enemies[j].State() == StepIfActive(trig, old(enemies[j].State()), time, delta)
      ensures States(enemies) == StepAll(trig, old(States(enemies)), time, delta)
      ensures scene.bullets.enemyPool == BulletManager.AfterShots(old(scene.bullets.enemyPool),
        FrameShots(trig, old(States(enemies)), time, delta, scene.player.x, scene.player.y))
      ensures scene.bullets.playerPool == old(scene.bullets.playerPool)
    {
      ghost var s0 := States(enemies);
      ghost var p0 := scene.bullets.enemyPool;
      assert s0[..0] == [];
      var i := 0;
      while i < |enemies|
        invariant 0 <= i <= |enemies|
        invariant scene.bullets.Valid()
        invariant UpdatedUpTo(trig, time, delta, s0, p0, old(scene.bullets.playerPool), i)
      {
        UpdateOne(trig, time, delta, i, s0, p0, old(scene.bullets.playerPool));
        i := i + 1;
      }
      assert s0[..i] == s0;
      assert States(enemies) == StepAll(trig, s0, time, delta);
    }

    /** How far runChildUpdate has got: the enemies before i have taken their
        turn, the others not yet, and the shots fired so far are in the pool. */
    ghost predicate UpdatedUpTo(trig: Trig, time: int, delta: int, s0: seq<Enemy.EnemyState>, p0: seq<BulletManager.Bullet>,
                                pp: seq<BulletManager.Bullet>, i: nat)
      reads this, enemies, scene, scene.bullets, scene.player
    {
      i <= |enemies| == |s0| &&
      (forall j :: 0 <= j < i ==> enemies[j].State() == StepIfActive(trig, s0[j], time, delta)) &&
      (forall j :: i <= j < |enemies| ==> enemies[j].State() == s0[j]) &&
      scene.bullets.enemyPool == BulletManager.AfterShots(p0, FrameShots(trig, s0[..i], time, delta, scene.player.x, scene.player.y)) &&
      scene.bullets.playerPool == pp
    }

    /** Enemy i's turn in runChildUpdate. */
    method UpdateOne(trig: Trig, time: int, delta: int, i: nat, ghost s0: seq<Enemy.EnemyState>, ghost p0: seq<BulletManager.Bullet>,
                     ghost pp: seq<BulletManager.Bullet>)
      requires Valid() && scene.bullets.Valid() && i < |enemies|
      requires UpdatedUpTo(trig, time, delta, s0, p0, pp, i)
      modifies enemies[i], scene.bullets
      ensures scene.bullets.Valid()
      ensures UpdatedUpTo(trig, time, delta, s0, p0, pp, i + 1)
    {
      var e := enemies[i];
      assert e.scene == scene && e.State() == s0[i];
      ghost var pool := scene.bullets.enemyPool;
      ghost var shots := if s0[i].active then Enemy.StepShots(trig, s0[i], time, delta, scene.player.x, scene.player.y) else [];
      if e.active {
        e.Update(trig, time, delta);
      } else {
        assert shots == [];
      }
      assert e.State() == StepIfActive(trig, s0[i], time, delta);
      assert forall j :: 0 <= j < |enemies| && j != i ==> enemies[j].State() == old(enemies[j].State());
      assert scene.bullets.enemyPool == BulletManager.AfterShots(pool, shots);
      assert s0[..i + 1][..i] == s0[..i];
      ghost var px, py := scene.player.x, scene.player.y;
      assert FrameShots(trig, s0[..i + 1], time, delta, px, py) == FrameShots(trig, s0[..i], time, delta, px, py) + shots;
      BulletManager.AfterShotsConcat(p0, FrameShots(trig, s0[..i], time, delta, px, py), shots);
    }
  }

  // ---------------------------------------------------------------- properties

  /** Active enemies counted over a concatenation add up. */
  lemma {:induction false} CountActiveConcat(a: seq<Enemy.Enemy>, b: seq<Enemy.Enemy>)
    ensures CountActive(a + b) == CountActive(a) + CountActive(b)
    decreases |b|
  {
    if b == [] {
      assert a + b == a;
    } else {
      assert (a + b)[..|a + b| - 1] == a + b[..|b| - 1];
      CountActiveConcat(a, b[..|b| - 1]);
    }
  }

  /** Freshly created enemies are all active, so they count in full. */
  lemma CreatedAreActive(old0: seq<Enemy.Enemy>, created: seq<Enemy.Enemy>, spawns: seq<Spawn>, d: Difficulty)
    requires Made(created, spawns, d)
    ensures CountActive(old0 + created) == CountActive(old0) + |spawns|
  {
    CountActiveConcat(old0, created);
    AllActive(created);
  }

  lemma {:induction false} AllActive(es: seq<Enemy.Enemy>)
    requires forall k :: 0 <= k < |es| ==> es[k].active
    ensures CountActive(es) == |es|
  {
    if es != [] {
      AllActive(es[..|es| - 1]);
    }
  }

  lemma ReachedStep(stage: Stage, elapsed: int, n: nat)
    requires n < |stage.waves|
    ensures Reached(stage, elapsed, n + 1) ==
      Reached(stage, elapsed, n) + (if elapsed >= stage.waves[n].spawnTime then {n} else {})
  {
  }

  /** One more wave in the due spawns and timers. */
  lemma DueStep(trig: Trig, stage: Stage, elapsed: int, spawned: set<int>, n: nat)
    requires n < |stage.waves|
    ensures var due := Due(stage, elapsed, spawned, n);
      DueSpawns(trig, stage, elapsed, spawned, n + 1) ==
        DueSpawns(trig, stage, elapsed, spawned, n) + (if due then WaveSpawns(trig, stage.waves[n]) else []) &&
      DueTimers(trig, stage, elapsed, spawned, n + 1) ==
        DueTimers(trig, stage, elapsed, spawned, n) + (if due then WaveTimers(trig, stage.waves[n]) else [])
  {
  }

  lemma MadeConcat(a: seq<Enemy.Enemy>, b: seq<Enemy.Enemy>, sa: seq<Spawn>, sb: seq<Spawn>, d: Difficulty)
    requires Made(a, sa, d) && Made(b, sb, d)
    ensures Made(a + b, sa + sb, d)
  {
  }

  /** A 'wave' row places its enemies strictly inside the screen, left to
      right, evenly spaced GAME_WIDTH / (count + 1) apart. */
  lemma WaveXSpec(count: int, i: int, j: int)
    requires count >= 1 && 0 <= i < j < count
    ensures 0.0 < WaveX(count, i) < WaveX(count, j) < GAME_WIDTH as real
    ensures WaveX(count, i + 1) - WaveX(count, i) == GAME_WIDTH as real / (count + 1) as real
  {
    var gap := GAME_WIDTH as real / (count + 1) as real;
    assert gap > 0.0;
    assert WaveX(count, j) == gap * (j + 1) as real;
    assert gap * (count + 1) as real == GAME_WIDTH as real;
    assert gap * (j + 1) as real < gap * (count + 1) as real;
    assert gap * (i + 1) as real < gap * (j + 1) as real;
  }

  /** What a wave's immediate spawns are: one per enemy of the wave for
      'wave' and 'circle' (none for the scheduled patterns or an unknown
      one), all with the wave's config; a 'wave' row flies straight down from
      y = -30 firing aimed shots, a 'circle' ring circles firing spreads. */
  lemma WaveSpawnsSpec(trig: Trig, w: Wave, i: int)
    requires 0 <= i < |WaveSpawns(trig, w)|
    ensures w.pattern == "wave" || w.pattern == "circle"
    ensures |WaveSpawns(trig, w)| == w.count
    ensures var s := WaveSpawns(trig, w)[i];
      s.config == ConfigFor(w.kind) &&
      (w.pattern == "wave" ==> s.x == WaveX(w.count, i) && s.y == -30.0 && s.move == Enemy.Straight && s.bullet == "aimed") &&
      (w.pattern == "circle" ==> (s.x, s.y) == RingPoint(trig, w.count, i) && s.move == Enemy.CircleMove && s.bullet == "spread")
  {
  }

  /** What a wave's scheduled spawns are: enemy i of a 'spiral' wave comes
      300 ms after the wave at a fixed x, flying a wave and firing aimed
      shots; enemy i of a 'random' wave comes 500 ms after it at a random x,
      zigzagging and firing spreads; all from y = -30. */
  lemma WaveTimersSpec(trig: Trig, w: Wave, i: int)
    requires 0 <= i < |WaveTimers(trig, w)|
    ensures w.pattern == "spiral" || w.pattern == "random"
    ensures |WaveTimers(trig, w)| == w.count
    ensures var p := WaveTimers(trig, w)[i];
      p.config == ConfigFor(w.kind) && p.y == -30.0 &&
      (w.pattern == "spiral" ==> p.delay == 300 * i && p.x == Some(SpiralX(trig, w.count, i)) && p.move == Enemy.WaveMove && p.bullet == "aimed") &&
      (w.pattern == "random" ==> p.delay == 500 * i && p.x == None && p.move == Enemy.Zigzag && p.bullet == "spread")
  {
  }

  /** A random spawn's x is the draw, and so within [50, GAME_WIDTH - 50]. */
  lemma RandomSpawnInside(p: Pending, draw: int)
    requires p.x.None? && 50 <= draw <= GAME_WIDTH - 50
    ensures 50.0 <= Resolve(p, draw).x <= (GAME_WIDTH - 50) as real
    ensures Resolve(p, draw).y == p.y && Resolve(p, draw).config == p.config
  {
  }

  /** The stage's enemy types: the book spirit is an elite (50 hp, 500
      points); the fairies and every unknown type are basic (10 hp, 100). */
  lemma ConfigForSpec(kind: string)
    ensures kind == "book_spirit" ==> ConfigFor(kind) == Enemy.EnemyConfig(Enemy.Elite, 50.0, 500)
    ensures kind != "book_spirit" ==> ConfigFor(kind) == Enemy.EnemyConfig(Enemy.Basic, 10.0, 100)
  {
  }

  /** A created enemy: active at its spawn point with its patterns, worth its
      config's score, with hp multiplied by the difficulty exactly once while
      maxHp keeps the config's hp, so that the enemy starts below, at or above
      "full" health on EASY, NORMAL and HARD or LUNATIC. */
  lemma CreatedSpec(s: Spawn, d: Difficulty)
    requires s.config.hp > 0.0
    ensures var e := Created(s, d);
      e.active && e.x == s.x && e.y == s.y && e.movePattern == s.move && e.bulletPattern == s.bullet &&
      e.scoreValue == s.config.score && e.maxHp == s.config.hp &&
      e.hp == s.config.hp * Profile(d).enemyHpMultiplier &&
      (d == EASY ==> e.hp < e.maxHp) && (d == NORMAL ==> e.hp == e.maxHp) &&
      (d == HARD || d == LUNATIC ==> e.hp > e.maxHp)
  {
  }

  /** The boss: worth BOSS points, the stage's boss hp scaled by the
      difficulty, at (GAME_WIDTH / 2, -50), circling and firing circles every
      2000 ms. */
  lemma BossSpec(stage: Stage, d: Difficulty)
    ensures var b := Created(BossSpawn(stage), d).(shootInterval := 2000);
      b.active && b.x == 192.0 && b.y == -50.0 && b.scoreValue == 10000 &&
      b.hp == stage.bossHp * Profile(d).enemyHpMultiplier && b.maxHp == stage.bossHp &&
      b.movePattern == Enemy.CircleMove && b.bulletPattern == "circle" && b.shootInterval == 2000
  {
  }

  /** Nothing records that the boss has appeared: once the stage has run its
      duration, an update that finds no enemy active (a destroyed boss
      included) and no wave due spawns another boss, and one that finds any
      enemy active does not. Scheduled spawns still pending do not count. */
  lemma {:induction false} BossReturns(stage: Stage, elapsed: int, es: seq<Enemy.Enemy>)
    requires elapsed >= stage.duration
    ensures BossDue(stage, elapsed, CountActive(es), 0) <==> forall k :: 0 <= k < |es| ==> !es[k].active
  {
    if es != [] {
      BossReturns(stage, elapsed, es[..|es| - 1]);
      assert forall k :: 0 <= k < |es| - 1 ==> es[..|es| - 1][k] == es[k];
    }
  }

  /** The group is empty exactly when none of its enemies is active. */
  lemma {:induction false} EmptyGroup(es: seq<Enemy.Enemy>)
    ensures CountActive(es) == 0 <==> NoneActive(States(es))
  {
    if es != [] {
      var front := es[..|es| - 1];
      EmptyGroup(front);
      var all, last := States(es), es[|es| - 1].State();
      assert all == States(front) + [last];
      assert last.active == es[|es| - 1].active;
      if NoneActive(States(front)) && !last.active {
        forall k | 0 <= k < |all|
          ensures !all[k].active
        {
          if k < |all| - 1 {
            assert all[k] == States(front)[k];
          }
        }
      }
      assert NoneActive(all) ==> !all[|all| - 1].active && forall k :: 0 <= k < |front| ==> all[k] == States(front)[k];
    }
  }

  /** The states of two groups of enemies, one after the other. */
  lemma StatesConcat(a: seq<Enemy.Enemy>, b: seq<Enemy.Enemy>)
    ensures States(a + b) == States(a) + States(b)
  {
  }

  /** The enemies update creates are in the states Arrivals lists, when
      `active0` of the enemies were active and `states` were their states:
      those made from the due spawns, then the boss when it was due. */
  lemma UpdateArrivals(trig: Trig, stage: Option<Stage>, elapsed: int, spawned: set<int>, active0: nat,
                       states: seq<Enemy.EnemyState>, made: seq<Enemy.Enemy>, boss: seq<Enemy.Enemy>, d: Difficulty)
    requires (active0 == 0) == NoneActive(states)
    requires stage.None? ==> made == [] && boss == []
    requires stage.Some? ==>
      var st := stage.value;
      var spawns := DueSpawns(trig, st, elapsed, spawned, |st.waves|);
      var due := BossDue(st, elapsed, active0, |spawns|);
      Made(made, spawns, d) &&
      |boss| == (if due then 1 else 0) &&
      (due ==> boss[0].State() == Created(BossSpawn(st), d).(shootInterval := 2000))
    ensures States(made + boss) == Arrivals(trig, stage, elapsed, spawned, states, d)
  {
    StatesConcat(made, boss);
  }

  /** A wave whose time has come is recorded by the update that reaches it. */
  lemma ReachedSpec(stage: Stage, elapsed: int, i: int)
    requires 0 <= i < |stage.waves|
    ensures i in Reached(stage, elapsed, |stage.waves|) <==> elapsed >= stage.waves[i].spawnTime
  {
  }

  /** Two updates, at elapsed times e1 <= e2, spawn between them exactly
      what one update at e2 would have: each wave is due at one of the two
      updates at most, and due at one of them exactly when the single
      update would spawn it, so no wave spawns twice and none is skipped;
      in total the spawns and the scheduled timers add up to the single
      update's. */
  lemma {:induction false} UpdatesSpawnOnce(trig: Trig, stage: Stage, spawned: set<int>, e1: int, e2: int, n: nat)
    requires e1 <= e2 && n <= |stage.waves|
    ensures var later := spawned + Reached(stage, e1, |stage.waves|);
      forall i | 0 <= i < |stage.waves| ::
        !(Due(stage, e1, spawned, i) && Due(stage, e2, later, i)) &&
        (Due(stage, e1, spawned, i) || Due(stage, e2, later, i) <==> Due(stage, e2, spawned, i))
    ensures var later := spawned + Reached(stage, e1, |stage.waves|);
      |DueSpawns(trig, stage, e1, spawned, n)| + |DueSpawns(trig, stage, e2, later, n)| == |DueSpawns(trig, stage, e2, spawned, n)| &&
      |DueTimers(trig, stage, e1, spawned, n)| + |DueTimers(trig, stage, e2, later, n)| == |DueTimers(trig, stage, e2, spawned, n)|
  {
    forall i | 0 <= i < |stage.waves|
      ensures !(Due(stage, e1, spawned, i) && Due(stage, e2, spawned + Reached(stage, e1, |stage.waves|), i))
      ensures Due(stage, e1, spawned, i) || Due(stage, e2, spawned + Reached(stage, e1, |stage.waves|), i) <==> Due(stage, e2, spawned, i)
    {
      ReachedSpec(stage, e1, i);
    }
    if n > 0 {
      var later := spawned + Reached(stage, e1, |stage.waves|);
      UpdatesSpawnOnce(trig, stage, spawned, e1, e2, n - 1);
      ReachedSpec(stage, e1, n - 1);
      var i := n - 1;
      assert Due(stage, e1, spawned, i) ==> Due(stage, e2, spawned, i) && !Due(stage, e2, later, i);
      assert Due(stage, e2, spawned, i) && !Due(stage, e1, spawned, i) ==> Due(stage, e2, later, i);
      assert !Due(stage, e2, spawned, i) ==> !Due(stage, e1, spawned, i) && !Due(stage, e2, later, i);
    }
  }

  /** Appending in two steps is appending once. */
  lemma Regroup<T>(a: seq<T>, b: seq<T>, c: seq<T>)
    ensures a + b + c == a + (b + c)
  {
  }
}

