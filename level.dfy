/** The level designer of killerasteroids/level.py: the level counter and
    the wave of asteroids and power-ups each level brings. */
module Level {
  import opened Settings
  import opened Randomness
  import opened GameObject

  /** Asteroids per level: level n brings 3 * n of them. */
  const ENEMIES_PER_LEVEL := 3
  /** Both kinds appear at an x in [600, 2000], to the right of the screen. */
  const SPAWN_LEFT := 600
  const SPAWN_RIGHT := 2000

  /** The pair (enemies, powerups) that generate_level returns. */
  datatype Wave = Wave(enemies: seq<Body>, powerups: seq<Body>)

  /** The k-th asteroid of a wave whose draws start at draw n: it draws its
      x, its y and its speed, in that order. */
  function Enemy(pick: (int, int, nat) -> int, n: nat, k: nat, frames: int): Body {
    var d := n + 3 * k;
    AsteroidBody(pick(SPAWN_LEFT, SPAWN_RIGHT, d), pick(LIMIT_UP, LIMIT_DOWN, d + 1), pick(3, 6, d + 2), frames, DEFAULT_FPS)
  }

  /** The first `count` asteroids of a wave whose draws start at draw n. */
  function Enemies(pick: (int, int, nat) -> int, n: nat, count: nat, frames: int): seq<Body>
    decreases count
  {
    if count == 0 then [] else Enemies(pick, n, count - 1, frames) + [Enemy(pick, n, count - 1, frames)]
  }

  /** The asteroids of a wave are its draws, taken three at a time. */
  lemma {:induction false} EnemiesAreDraws(pick: (int, int, nat) -> int, n: nat, count: nat, frames: int)
    ensures |Enemies(pick, n, count, frames)| == count
    ensures forall k :: 0 <= k < count ==> Enemies(pick, n, count, frames)[k] == Enemy(pick, n, k, frames)
    decreases count
  {
    if count > 0 {
      EnemiesAreDraws(pick, n, count - 1, frames);
    }
  }

  /** The power-ups of a wave whose draws start at draw n: first their number
      in [0, 1], then x and y for the one there may be. */
  function PowerUps(pick: (int, int, nat) -> int, n: nat, frames: int): seq<Body> {
    if pick(0, 1, n) == 1 then
      [PowerUpBody(pick(SPAWN_LEFT, SPAWN_RIGHT, n + 1), pick(LIMIT_UP, LIMIT_DOWN, n + 2), frames, DEFAULT_FPS)]
    else
      []
  }

  /** The number of draws the power-ups of a wave use. */
  function PowerUpDraws(pick: (int, int, nat) -> int, n: nat): nat {
    if pick(0, 1, n) == 1 then 3 else 1
  }

  /** generate_level for `level`, drawing from draw n on: the enemies, then
      the power-ups. */
  function Generate(pick: (int, int, nat) -> int, n: nat, level: nat, asteroidFrames: int, powerUpFrames: int): Wave {
    var count := ENEMIES_PER_LEVEL * level;
    Wave(Enemies(pick, n, count, asteroidFrames), PowerUps(pick, n + 3 * count, powerUpFrames))
  }

  /** The number of draws generate_level makes. */
  function GenerateDraws(pick: (int, int, nat) -> int, n: nat, level: nat): nat {
    var count := ENEMIES_PER_LEVEL * level;
    3 * count + PowerUpDraws(pick, n + 3 * count)
  }

  /** A spawned object is animated from its start, placed to the right of the
      screen, within the vertical limits of the ship. */
  predicate Spawned(b: Body, size: Size) {
    && b.w == size.w && b.h == size.h
    && SPAWN_LEFT <= b.x <= SPAWN_RIGHT && LIMIT_UP <= b.y <= LIMIT_DOWN
    && ClockValid(b.clock) && b.clock.frame == 0 && b.clock.lastUpdate == 0 && b.clock.fps == DEFAULT_FPS
  }

  /** Level n has 3 * n asteroids and at most one power-up, all waiting to
      the right of the screen, every asteroid with a speed from 3 to 6. */
  lemma {:induction false} WaveShape(pick: (int, int, nat) -> int, n: nat, level: nat, asteroidFrames: int, powerUpFrames: int)
    requires UniformRange(pick) && asteroidFrames > 0 && powerUpFrames > 0
    ensures var w := Generate(pick, n, level, asteroidFrames, powerUpFrames);
      && |w.enemies| == ENEMIES_PER_LEVEL * level && |w.powerups| <= 1
      && (forall b :: b in w.enemies ==> Spawned(b, ASTEROID_SPRITE) && 3 <= b.speed <= 6)
      && (forall b :: b in w.powerups ==> Spawned(b, POWER_UP_SPRITE) && b.speed == POWER_UP_SPEED)
  {
    var count := ENEMIES_PER_LEVEL * level;
    var w := Generate(pick, n, level, asteroidFrames, powerUpFrames);
    EnemiesAreDraws(pick, n, count, asteroidFrames);
    forall b | b in w.enemies
      ensures Spawned(b, ASTEROID_SPRITE) && 3 <= b.speed <= 6
    {
      var k :| 0 <= k < count && w.enemies[k] == b;
      var d := n + 3 * k;
      assert b == Enemy(pick, n, k, asteroidFrames);
      assert Within(pick, SPAWN_LEFT, SPAWN_RIGHT, d);
      assert Within(pick, LIMIT_UP, LIMIT_DOWN, d + 1);
      assert Within(pick, 3, 6, d + 2);
    }
    var m := n + 3 * count;
    assert Within(pick, SPAWN_LEFT, SPAWN_RIGHT, m + 1);
    assert Within(pick, LIMIT_UP, LIMIT_DOWN, m + 2);
  }

  class LevelDesign {
    var currentLevel: nat
    var levelDesign: Wave
    /** The module-level random source of the source, shared with the game. */
    const rng: Random
    /** The numbers of frames of the asteroid and power-up sprite sheets. */
    const asteroidFrames: int
    const powerUpFrames: int

    ghost predicate Valid()
      reads this, rng
    {
      currentLevel >= 1 && rng.Valid() && asteroidFrames > 0 && powerUpFrames > 0
    }

    /** Level 1 and its wave. */
    constructor (rng: Random, asteroidFrames: int, powerUpFrames: int)
      requires rng.Valid() && asteroidFrames > 0 && powerUpFrames > 0
      modifies rng
      ensures Valid() && this.rng == rng
      ensures this.asteroidFrames == asteroidFrames && this.powerUpFrames == powerUpFrames
      ensures currentLevel == 1
      ensures levelDesign == Generate(rng.pick, old(rng.draws), 1, asteroidFrames, powerUpFrames)
      ensures rng.draws == old(rng.draws) + GenerateDraws(rng.pick, old(rng.draws), 1)
    {
      currentLevel := 1;
      levelDesign := Wave([], []);
      this.rng := rng;
      this.asteroidFrames, this.powerUpFrames := asteroidFrames, powerUpFrames;
      new;
      levelDesign := GenerateLevel();
    }

    /** The wave of the current level, as generated. */
    function GetLevel(): Wave
      reads this
    {
      levelDesign
    }

    /** One level up, with a fresh wave for it. */
    method NextLevel() returns (w: Wave)
      requires Valid()
      modifies this, rng
      ensures Valid() && currentLevel == old(currentLevel) + 1
      ensures w == levelDesign == Generate(rng.pick, old(rng.draws), currentLevel, asteroidFrames, powerUpFrames)
      ensures rng.draws == old(rng.draws) + GenerateDraws(rng.pick, old(rng.draws), currentLevel)
    {
      currentLevel := currentLevel + 1;
      levelDesign := GenerateLevel();
      w := levelDesign;
    }

    /** _get_enemies: 3 * level asteroids, each drawing its x, its y and its
        speed. */
    method GetEnemies() returns (enemies: seq<Body>)
      requires Valid()
      modifies rng
      ensures Valid()
      ensures enemies == Enemies(rng.pick, old(rng.draws), ENEMIES_PER_LEVEL * currentLevel, asteroidFrames)
      ensures rng.draws == old(rng.draws) + 3 * (ENEMIES_PER_LEVEL * currentLevel)
    {
      ghost var pick, start := rng.pick, rng.draws;
      var num := currentLevel * ENEMIES_PER_LEVEL;
      enemies := [];
      for i := 0 to num
        invariant rng.Valid() && rng.draws == start + 3 * i
        invariant enemies == Enemies(pick, start, i, asteroidFrames)
      {
        var x := rng.RandInt(SPAWN_LEFT, SPAWN_RIGHT);
        var y := rng.RandInt(LIMIT_UP, LIMIT_DOWN);
        var speed := rng.RandInt(3, 6);
        var enemy := AsteroidBody(x, y, speed, asteroidFrames, DEFAULT_FPS);
        assert enemy == Enemy(pick, start, i, asteroidFrames);
        enemies := enemies + [enemy];
      }
    }

    /** _get_powerups: the number of power-ups, then x and y for each. */
    method GetPowerups() returns (powerups: seq<Body>)
      requires Valid()
      modifies rng
      ensures Valid()
      ensures powerups == PowerUps(rng.pick, old(rng.draws), powerUpFrames)
      ensures rng.draws == old(rng.draws) + PowerUpDraws(rng.pick, old(rng.draws))
    {
      var num := rng.RandInt(0, 1);
      powerups := [];
      for i := 0 to num
        invariant rng.Valid() && rng.draws == old(rng.draws) + 1 + 2 * i
        invariant |powerups| == i
        invariant i == 1 ==> powerups == PowerUps(rng.pick, old(rng.draws), powerUpFrames)
      {
        var x := rng.RandInt(SPAWN_LEFT, SPAWN_RIGHT);
        var y := rng.RandInt(LIMIT_UP, LIMIT_DOWN);
        powerups := powerups + [PowerUpBody(x, y, powerUpFrames, DEFAULT_FPS)];
      }
    }

    /** generate_level: the enemies, then the power-ups, from the shared
        random source. */
    method GenerateLevel() returns (w: Wave)
      requires Valid()
      modifies rng
      ensures Valid()
      ensures w == Generate(rng.pick, old(rng.draws), currentLevel, asteroidFrames, powerUpFrames)
      ensures rng.draws == old(rng.draws) + GenerateDraws(rng.pick, old(rng.draws), currentLevel)
    {
      ghost var expected := Generate(rng.pick, rng.draws, currentLevel, asteroidFrames, powerUpFrames);
      var enemies := GetEnemies();
      assert enemies == expected.enemies;
      var powerups := GetPowerups();
      assert powerups == expected.powerups;
      w := Wave(enemies, powerups);
    }
  }
}
