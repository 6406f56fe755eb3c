/** GameLoop of killerasteroids/display.py: the game's state between two
    frames and the frame step of its main loop. The sprite groups are
    sequences of sprite records in the order pygame keeps them (insertion
    order); the ship stays a Player object. */
module Display {
  import opened Settings
  import opened Rects
  import opened Util
  import opened Randomness
  import opened GameObject
  import opened Collide
  import opened Level
  import opened GameRules
  import opened FrameStep
  import Input

  class GameLoop {
    const player: Player
    const level: LevelDesign
    /** The random source the asteroids and the level designer share. */
    const rng: Random
    const sheets: Sheets
    var lasers: seq<Body>
    var asteroids: seq<Body>
    var powerups: seq<Body>
    var effects: seq<Body>
    var spaces: seq<Body>
    /** Turns false when the game is over. */
    var playing: bool
    /** The score reset_game hands to the game-over screen. */
    var finalScore: Option<int>

    /** The objects are linked up as the constructor left them. */
    ghost predicate Wired()
      reads this, player, player.sprite, level
    {
      && sheets.Valid() && player.Valid() && level.rng == rng
      && level.asteroidFrames == sheets.asteroid && level.powerUpFrames == sheets.powerUp
    }

    /** What holds between two frames while the game runs and once it ends:
        the ship is in the playfield on its 5-pixel grid, the score is not
        negative, a running game has a life left, and every sprite of every
        group is of its kind (see GameRules). */
    ghost predicate Valid()
      reads this, player, player.sprite, player.life, player.score, level, rng
    {
      && Wired() && level.Valid()
      && InPlayfield(player.sprite.x, player.sprite.y)
      && player.score.score >= 0 && player.life.life >= 0
      && (playing ==> player.life.life >= 1)
      && (playing <==> finalScore == None)
      && GroupsOk(Groups())
    }

    function Groups(): GameRules.Groups
      reads this
    {
      GameRules.Groups(lasers, asteroids, powerups, effects, spaces)
    }

    /** The game's state as the frame step sees it. */
    ghost function State(): World
      reads this, player, player.sprite, player.life, player.score, level, rng
    {
      World(Groups(), player.Steering(), player.score.score, player.life.life, level.currentLevel,
            rng.draws, playing, finalScore, player.Record())
    }

    /** GameLoop.__init__: the ship at (0, 200), two background tiles side by
        side, level 1 with its wave, no lasers and no effects. */
    constructor (rng: Random, sheets: Sheets)
      requires rng.Valid() && sheets.Valid()
      modifies rng
      ensures Valid() && playing && this.rng == rng && this.sheets == sheets
      ensures fresh(player) && fresh(player.sprite) && fresh(player.life) && fresh(player.score) && fresh(level)
      ensures player.sprite.x == 0 && player.sprite.y == 200 && player.Steering() == Intent(Still, Still)
      ensures player.life.life == 3 && player.score.score == 0 && level.currentLevel == 1
      ensures spaces == [SpaceBody(0, 0, sheets.space, DEFAULT_FPS), SpaceBody(640, 0, sheets.space, DEFAULT_FPS)]
      ensures lasers == [] && effects == []
      ensures Wave(asteroids, powerups) == Generate(rng.pick, old(rng.draws), 1, sheets.asteroid, sheets.powerUp)
    {
      playing := true;
      finalScore := None;
      var p := new Player(sheets.player, DEFAULT_FPS);
      spaces := [SpaceBody(0, 0, sheets.space, DEFAULT_FPS), SpaceBody(640, 0, sheets.space, DEFAULT_FPS)];
      var l := new LevelDesign(rng, sheets.asteroid, sheets.powerUp);
      WaveShape(rng.pick, old(rng.draws), 1, sheets.asteroid, sheets.powerUp);
      var w := l.GetLevel();
      player, level := p, l;
      this.rng, this.sheets := rng, sheets;
      asteroids, powerups := w.enemies, w.powerups;
      lasers, effects := [], [];
    }

    /** The controls the event loop changes. */
    function Controls(): GameRules.Controls
      reads this, player, player.score
    {
      GameRules.Controls(player.Steering(), player.score.score, lasers)
    }

    /** The event loop of main: steering, firing, quitting. */
    method HandleEvents(events: seq<Input.Event>) returns (quit: bool)
      requires Valid()
      modifies this, player, player.score
      ensures Valid()
      ensures (Controls(), quit) == OnEvents(old(Controls()), events, Center(player.sprite.Bounds()), sheets.laser)
      ensures asteroids == old(asteroids) && powerups == old(powerups) && effects == old(effects)
      ensures spaces == old(spaces) && playing == old(playing) && finalScore == old(finalScore)
      ensures (State(), quit) == Fired(old(State()), events, sheets.laser)
    {
      var center := Center(player.sprite.Bounds());
      ShipLaser(player.sprite.x, player.sprite.y, sheets.laser);
      quit := false;
      var i := 0;
      while i < |events|
        invariant 0 <= i <= |events| && Valid()
        invariant OnEvents(Controls(), events[i..], center, sheets.laser) == OnEvents(old(Controls()), events, center, sheets.laser)
        invariant asteroids == old(asteroids) && powerups == old(powerups) && effects == old(effects)
        invariant spaces == old(spaces) && playing == old(playing) && finalScore == old(finalScore)
      {
        var e := events[i];
        if e == Input.Quit || e == Input.KeyDown(Input.Escape) {
          quit := true;
          return;
        }
        assert events[i..][1..] == events[i + 1..];
        match e {
          case Quit =>
          case KeyUp(k) =>
            if Input.IsArrow(k) {
              player.StopMoving(k);
            }
          case KeyDown(k) =>
            if Input.IsArrow(k) {
              player.Move(k);
            }
            if k == Input.Space {
              player.UpdateScore("fire");
              lasers := lasers + [LaserBody(center, sheets.laser, DEFAULT_FPS)];
            }
        }
        i := i + 1;
      }
    }

    /** laser_hits_asteroid: with lasers in the group, sweep them against the
        asteroids; any hit scores one "kill" (however many asteroids fell) and
        each laser that hit leaves an explosion at the first asteroid it took. */
    method LaserHitsAsteroid(now: int)
      requires Valid() && now > 0
      modifies this, player.score
      ensures Valid()
      ensures old(lasers) == [] ==>
        lasers == old(lasers) && asteroids == old(asteroids) && effects == old(effects) &&
        player.score.score == old(player.score.score)
      ensures old(lasers) != [] ==>
        var s := GroupCollide(old(lasers), old(asteroids));
        && lasers == s.restA && asteroids == s.restB
        && Blastable(s.hits) && effects == old(effects) + Blasts(s.hits, sheets.explosion, now)
        && player.score.score == if s.hits == [] then old(player.score.score) else ScoreAfter(old(player.score.score), "kill")
      ensures powerups == old(powerups) && spaces == old(spaces)
      ensures playing == old(playing) && finalScore == old(finalScore)
      ensures State() == LaserStrike(old(State()), sheets.explosion, now)
    {
      var hit: seq<Claim> := [];
      if |lasers| > 0 {
        var s := GroupCollide(lasers, asteroids);
        SweepKeeps(lasers, asteroids);
        lasers, asteroids := s.restA, s.restB;
        hit := s.hits;
      }
      if hit != [] {
        player.UpdateScore("kill");
        BlastsLive(hit, sheets.explosion, now);
        effects := AddBlasts(effects, hit, sheets.explosion, now);
      }
    }

    /** The loop over the collision dictionary that adds one explosion per
        entry to the effect group. */
    static method AddBlasts(effects: seq<Body>, hit: seq<Claim>, frames: int, now: int) returns (r: seq<Body>)
      requires Blastable(hit)
      ensures r == effects + Blasts(hit, frames, now)
    {
      ghost var blasts := Blasts(hit, frames, now);
      r := effects;
      for i := 0 to |hit|
        invariant r == effects + blasts[..i]
      {
        assert hit[i] in hit;
        var target := hit[i].taken[0];
        r := r + [ExplosionBody(Center(target.Bounds()), frames, now)];
        assert blasts[..i + 1] == blasts[..i] + [blasts[i]];
      }
      assert blasts[..|hit|] == blasts;
    }

    /** The game over: reset_game hands the score to the game-over screen and
        stops the loop. */
    method ResetGame()
      modifies this
      ensures !playing && finalScore == Some(player.score.score)
      ensures lasers == old(lasers) && asteroids == old(asteroids) && powerups == old(powerups)
      ensures effects == old(effects) && spaces == old(spaces)
    {
      finalScore := Some(player.score.score);
      playing := false;
    }

    /** asteroid_hits_player: every asteroid touching the ship is removed; if
        any was, the ship takes one "damaged" score event, loses one life and
        explodes, and with no lives left the game is over. */
    method AsteroidHitsPlayer(now: int)
      requires Valid() && playing && now > 0
      modifies this, player.life, player.score
      ensures Valid()
      ensures var ship := player.Record();
        var hit := Touching(old(asteroids), ship) != [];
        && asteroids == Clear(old(asteroids), ship)
        && (hit ==>
          && player.score.score == ScoreAfter(old(player.score.score), "damaged")
          && player.life.life == old(player.life.life) - 1
          && effects == old(effects) + [ExplosionBody(Center(ship.Bounds()), sheets.explosion, now)])
        && (!hit ==>
          player.score.score == old(player.score.score) && player.life.life == old(player.life.life) && effects == old(effects))
        && (playing <==> !(hit && player.life.life == 0))
        && (!playing ==> finalScore == Some(player.score.score))
      ensures lasers == old(lasers) && powerups == old(powerups) && spaces == old(spaces)
      ensures State() == AsteroidStrike(old(State()), sheets.explosion, now)
    {
      var ship := player.Record();
      var hit := Touching(asteroids, ship) != [];
      StrikeAgainstPlayer(asteroids, ship);
      var missed := Clear(asteroids, ship);
      assert AllAsteroids(missed);
      asteroids := missed;
      assert GroupsOk(Groups());
      if hit {
        player.UpdateScore("damaged");
        player.LoseLife();
        var blast := ExplosionBody(Center(ship.Bounds()), sheets.explosion, now);
        assert EffectLive(blast);
        effects := effects + [blast];
        assert AllEffects(effects);
        assert GroupsOk(Groups());
        if player.LivesLeft() == 0 {
          ResetGame();
        }
      }
    }

    /** player_gets_powerup: every power-up touching the ship is collected;
        if any was, the ship glows and gains one life, however many it took.
        This runs even in the frame in which the game ended. */
    method PlayerGetsPowerup(now: int)
      requires Valid() && now > 0
      modifies this, player.life
      ensures Valid()
      ensures var ship := player.Record();
        var hit := Touching(old(powerups), ship) != [];
        && powerups == Clear(old(powerups), ship)
        && (hit ==>
          player.life.life == old(player.life.life) + 1 &&
          effects == old(effects) + [PowerUpEffectBody(Center(ship.Bounds()), sheets.effect, now)])
        && (!hit ==> player.life.life == old(player.life.life) && effects == old(effects))
      ensures lasers == old(lasers) && asteroids == old(asteroids) && spaces == old(spaces)
      ensures playing == old(playing) && finalScore == old(finalScore)
      ensures State() == PowerUpStrike(old(State()), sheets.effect, now)
    {
      var ship := player.Record();
      var hit := Touching(powerups, ship) != [];
      StrikeAgainstPlayer(powerups, ship);
      var collected := Clear(powerups, ship);
      assert AllPowerUps(collected);
      powerups := collected;
      if hit {
        var glow := PowerUpEffectBody(Center(ship.Bounds()), sheets.effect, now);
        assert EffectLive(glow);
        effects := effects + [glow];
        assert AllEffects(effects);
        player.GetExtraLife();
      }
      assert GroupsOk(Groups());
    }

    /** is_asteroids_destroyed: an empty asteroid group means the next level:
        +1000, and the new wave joins the groups. */
    method IsAsteroidsDestroyed()
      requires Valid()
      modifies this, player.score, level, rng
      ensures Valid()
      ensures old(asteroids) != [] ==>
        asteroids == old(asteroids) && powerups == old(powerups) && player.score.score == old(player.score.score) &&
        level.currentLevel == old(level.currentLevel) && rng.draws == old(rng.draws)
      ensures old(asteroids) == [] ==>
        var w := Generate(rng.pick, old(rng.draws), level.currentLevel, sheets.asteroid, sheets.powerUp);
        && level.currentLevel == old(level.currentLevel) + 1
        && player.score.score == ScoreAfter(old(player.score.score), "level up")
        && asteroids == w.enemies && powerups == old(powerups) + w.powerups
      ensures lasers == old(lasers) && effects == old(effects) && spaces == old(spaces)
      ensures playing == old(playing) && finalScore == old(finalScore)
      ensures State() == LevelCheck(old(State()), rng.pick, sheets.asteroid, sheets.powerUp)
    {
      if |asteroids| == 0 {
        LevelUp();
      }
    }

    /** The branch of is_asteroids_destroyed taken with no asteroid left:
        "level up", the next level, and its wave joins the groups. */
    method LevelUp()
      requires Valid() && asteroids == []
      modifies this, player.score, level, rng
      ensures Valid()
      ensures var w := Generate(rng.pick, old(rng.draws), level.currentLevel, sheets.asteroid, sheets.powerUp);
        && level.currentLevel == old(level.currentLevel) + 1
        && player.score.score == ScoreAfter(old(player.score.score), "level up")
        && asteroids == w.enemies && powerups == old(powerups) + w.powerups
      ensures lasers == old(lasers) && effects == old(effects) && spaces == old(spaces)
      ensures playing == old(playing) && finalScore == old(finalScore)
      ensures State() == LevelCheck(old(State()), rng.pick, sheets.asteroid, sheets.powerUp)
    {
      ghost var before := State();
      player.UpdateScore("level up");
      var w := level.NextLevel();
      WaveShape(rng.pick, before.draws, level.currentLevel, sheets.asteroid, sheets.powerUp);
      asteroids := w.enemies;
      powerups := powerups + w.powerups;
      LevelCheckOnEmpty(before, rng.pick, sheets.asteroid, sheets.powerUp, w, rng.draws);
    }

    /** animate_groups: every sprite, the ship included, animated at `now`. */
    method AnimateGroups(now: int)
      requires Wired() && GroupsOk(Groups())
      modifies this, player.sprite
      ensures Wired()
      ensures spaces == Animated(old(spaces), now) && lasers == Animated(old(lasers), now)
      ensures asteroids == Animated(old(asteroids), now) && powerups == Animated(old(powerups), now)
      ensures effects == Animated(old(effects), now)
      ensures player.sprite.ClockState() == Animation(old(player.sprite.ClockState()), now)
      ensures player.sprite.x == old(player.sprite.x) && player.sprite.y == old(player.sprite.y)
      ensures playing == old(playing) && finalScore == old(finalScore)
    {
      spaces := AnimateGroup(spaces, now);
      lasers := AnimateGroup(lasers, now);
      player.sprite.Animate(now);
      asteroids := AnimateGroup(asteroids, now);
      powerups := AnimateGroup(powerups, now);
      effects := AnimateGroup(effects, now);
    }

    /** The loop that animates one group, sprite by sprite. */
    static method AnimateGroup(group: seq<Body>, t: int) returns (r: seq<Body>)
      requires Clocked(group)
      ensures |r| == |group|
      ensures forall k :: 0 <= k < |r| ==> r[k].clock == Animation(group[k].clock, t) && r[k] == group[k].(clock := r[k].clock)
      ensures r == Animated(group, t)
    {
      r := [];
      for i := 0 to |group|
        invariant |r| == i
        invariant forall k :: 0 <= k < i ==> r[k] == group[k].(clock := Animation(group[k].clock, t))
      {
        assert group[i] in group;
        var b := group[i];
        r := r + [b.(clock := Animation(b.clock, t))];
      }
    }

    /** Group.update() for a group whose sprites all follow `rule`. */
    static method UpdateGroup(group: seq<Body>, rule: Body -> Body) returns (r: seq<Body>)
      ensures |r| == |group| && forall k :: 0 <= k < |r| ==> r[k] == rule(group[k])
      ensures r == Each(group, rule)
    {
      r := [];
      for i := 0 to |group|
        invariant |r| == i && forall k :: 0 <= k < i ==> r[k] == rule(group[k])
      {
        r := r + [rule(group[i])];
      }
    }

    /** asteroid_group.update(): each asteroid in turn, respawns drawing from
        the shared random source in that order. */
    static method StepAsteroids(group: seq<Body>, rng: Random) returns (r: seq<Body>)
      requires rng.Valid()
      modifies rng
      ensures rng.Valid()
      ensures (r, rng.draws) == AsteroidsStep(group, rng.pick, old(rng.draws))
    {
      r := [];
      for i := 0 to |group|
        invariant rng.Valid()
        invariant (r, rng.draws) == AsteroidsStep(group[..i], rng.pick, old(rng.draws))
      {
        assert group[..i + 1][..i] == group[..i];
        var b := group[i];
        if b.x > 0 {
          b := b.(x := b.x - b.speed);
        } else {
          var x, y := Asteroid.Respawn(rng);
          b := b.(x := x, y := y);
        }
        r := r + [b];
      }
      assert group[..|group|] == group;
    }

    /** update_groups: tiles, lasers, the ship, asteroids, power-ups and
        effects, in that order. */
    method UpdateGroups()
      requires Wired() && level.Valid()
      modifies this, player.sprite, rng
      ensures Wired() && level.Valid()
      ensures spaces == Each(old(spaces), SpaceUpdate) && lasers == Each(old(lasers), LaserUpdate)
      ensures (asteroids, rng.draws) == AsteroidsStep(old(asteroids), rng.pick, old(rng.draws))
      ensures powerups == Each(old(powerups), PowerUpUpdate) && effects == Each(old(effects), EffectUpdate)
      ensures player.sprite.x == HorizontalStep(old(player.sprite.x), player.horizontal)
      ensures player.sprite.y == VerticalStep(old(player.sprite.y), player.vertical)
      ensures player.sprite.ClockState() == old(player.sprite.ClockState())
      ensures playing == old(playing) && finalScore == old(finalScore)
    {
      spaces := UpdateGroup(spaces, SpaceUpdate);
      lasers := UpdateGroup(lasers, LaserUpdate);
      player.Update();
      asteroids := StepAsteroids(asteroids, rng);
      powerups := UpdateGroup(powerups, PowerUpUpdate);
      effects := UpdateGroup(effects, EffectUpdate);
    }

    /** The loop that removes from a group the sprites failing `keep`. */
    static method Keep(group: seq<Body>, keep: Body -> bool) returns (r: seq<Body>)
      ensures r == Filter(group, keep)
      ensures forall b :: b in r <==> b in group && keep(b)
    {
      r := [];
      for i := 0 to |group|
        invariant r == Filter(group[..i], keep)
      {
        FilterSnoc(group[..i], group[i], keep);
        assert group[..i + 1] == group[..i] + [group[i]];
        if keep(group[i]) {
          r := r + [group[i]];
        }
      }
      assert group[..|group|] == group;
      FilterMembers(group, keep);
    }

    /** clean_groups: lasers past the right edge, power-ups past the left edge
        and effects out of life are removed. */
    method CleanGroups()
      modifies this
      ensures lasers == Filter(old(lasers), LaserKept)
      ensures powerups == Filter(old(powerups), PowerUpKept)
      ensures effects == Filter(old(effects), EffectKept)
      ensures asteroids == old(asteroids) && spaces == old(spaces)
      ensures playing == old(playing) && finalScore == old(finalScore)
    {
      lasers := Keep(lasers, LaserKept);
      powerups := Keep(powerups, PowerUpKept);
      effects := Keep(effects, EffectKept);
    }

    /** The guarded part of a frame: animate, update, clean. */
    method Advance(now: int)
      requires Valid()
      modifies this, player.sprite, rng
      ensures Valid()
      ensures playing == old(playing) && finalScore == old(finalScore)
      ensures (Groups(), rng.draws) == Advanced(old(Groups()), now, rng.pick, old(rng.draws))
      ensures player.sprite.x == HorizontalStep(old(player.sprite.x), player.horizontal)
      ensures player.sprite.y == VerticalStep(old(player.sprite.y), player.vertical)
      ensures player.sprite.ClockState() == Animation(old(player.sprite.ClockState()), now)
      ensures old(playing) ==> State() == Play(old(State()), now, rng.pick)
    {
      StepKeepsPlayfield(player.sprite.x, player.sprite.y, player.Steering());
      AdvanceKeepsGroups(Groups(), now, rng.pick, rng.draws);
      AnimateGroups(now);
      UpdateGroups();
      CleanGroups();
    }
  
    /** One pass of the loop in main while the game is on, at time `now`
        (the source reads the clock once per sprite; one time is used for the
        whole frame here): the events, the four collision checks in their
        order, and, unless the game just ended, animate, update and clean. */
    method Frame(events: seq<Input.Event>, now: int) returns (quit: bool)
      requires Valid() && playing && now > 0
      modifies this, player, player.sprite, player.life, player.score, level, rng
      ensures Valid()
      ensures quit ==> playing && Groups() == old(Groups()).(lasers := lasers)
      ensures quit || !playing ==> player.sprite.x == old(player.sprite.x) && player.sprite.y == old(player.sprite.y)
      ensures !playing ==> spaces == old(spaces) && 0 <= player.life.life <= 1
      ensures old(player.life.life) - 1 <= player.life.life <= old(player.life.life) + 1
      ensures old(level.currentLevel) <= level.currentLevel <= old(level.currentLevel) + 1
      ensures (State(), quit) == FrameOutcome(old(State()), events, now, sheets, rng.pick)
    {
      quit := HandleEvents(events);
      if quit {
        return;
      }
      LaserHitsAsteroid(now);
      AsteroidHitsPlayer(now);
      PlayerGetsPowerup(now);
      IsAsteroidsDestroyed();
      if playing {
        Advance(now);
      }
    }

    /** main: frames run one after the other, each with its events and its
        time, until the game is over, a quitting event comes, or the schedule
        runs out; `count` is the number of frames run. */
    method Run(schedule: seq<(seq<Input.Event>, int)>) returns (quit: bool, count: nat)
      requires Valid() && playing
      requires Timed(schedule)
      modifies this, player, player.sprite, player.life, player.score, level, rng
      ensures Valid() && count <= |schedule|
      ensures count < |schedule| ==> quit || !playing
      ensures !quit && playing ==> count == |schedule|
      ensures (State(), quit, count) == RunFrom(old(State()), schedule, 0, sheets, rng.pick)
      ensures old(level.currentLevel) <= level.currentLevel <= old(level.currentLevel) + count
    {
      quit := false;
      count := 0;
      while count < |schedule| && playing && !quit
        invariant Valid() && count <= |schedule|
        invariant !quit ==> RunFrom(State(), schedule, count, sheets, rng.pick) == RunFrom(old(State()), schedule, 0, sheets, rng.pick)
        invariant quit ==> (State(), true, count) == RunFrom(old(State()), schedule, 0, sheets, rng.pick)
        decreases |schedule| - count
      {
        quit := Frame(schedule[count].0, schedule[count].1);
        count := count + 1;
      }
    }
  }
}
