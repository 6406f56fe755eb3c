/** One pass of the loop in GameLoop.main (killerasteroids/display.py) as a
    function on values: the events, the four collision checks in their fixed
    order, and, while the game is still on, animate, update and clean. Each
    phase is one function, and the frame is their composition. */
module FrameStep {
  import opened Settings
  import opened Rects
  import opened Util
  import opened Randomness
  import opened GameObject
  import opened Collide
  import opened Level
  import opened GameRules
  import Input

  /** Everything a frame reads or changes: the sprite groups, the ship's
      steering, score, lives and sprite record, the level, the number of
      random draws made so far, whether the game is on, and the score handed
      to the game-over screen once it is not. */
  datatype World = World(
    groups: Groups, steering: Intent, score: int, lives: int, level: nat,
    draws: nat, playing: bool, finalScore: Option<int>, ship: Body)

  /** The ship's record is of the ship's size, in the playfield, with a valid
      clock, and every group holds sprites of its kind. */
  predicate WorldOk(w: World) {
    && GroupsOk(w.groups)
    && w.ship.w == PLAYER_SPRITE.w && w.ship.h == PLAYER_SPRITE.h
    && InPlayfield(w.ship.x, w.ship.y) && ClockValid(w.ship.clock)
  }

  /** The event loop: steering, firing from the ship's centre and charging
      "fire", up to the first quitting event; with the quit flag. */
  function Fired(w: World, events: seq<Input.Event>, laserFrames: int): (r: (World, bool))
    requires WorldOk(w) && laserFrames > 0
    ensures WorldOk(r.0)
    ensures r.0 == w.(steering := r.0.steering, score := r.0.score, groups := w.groups.(lasers := r.0.groups.lasers))
  {
    var center := Center(w.ship.Bounds());
    var (c, quit) := OnEvents(Controls(w.steering, w.score, w.groups.lasers), events, center, laserFrames);
    ShipLaser(w.ship.x, w.ship.y, laserFrames);
    EventsKeepLasers(Controls(w.steering, w.score, w.groups.lasers), events, center, laserFrames);
    (w.(steering := c.steering, score := c.score, groups := w.groups.(lasers := c.lasers)), quit)
  }

  /** laser_hits_asteroid: only with lasers in the group, the sweep of the
      lasers against the asteroids, an explosion per laser that hit and one
      "kill" if any did. */
  function LaserStrike(w: World, frames: int, now: int): (r: World)
    requires WorldOk(w) && frames > 0 && now > 0
    ensures WorldOk(r)
    ensures r.groups.powerups == w.groups.powerups && r.groups.spaces == w.groups.spaces
    ensures r == w.(groups := r.groups, score := r.score)
    ensures r.score == w.score || r.score == ScoreAfter(w.score, "kill")
  {
    if w.groups.lasers == [] then w
    else
      var s := GroupCollide(w.groups.lasers, w.groups.asteroids);
      SweepKeeps(w.groups.lasers, w.groups.asteroids);
      BlastsLive(s.hits, frames, now);
      w.(groups := w.groups.(lasers := s.restA, asteroids := s.restB, effects := w.groups.effects + Blasts(s.hits, frames, now)),
         score := if s.hits == [] then w.score else ScoreAfter(w.score, "kill"))
  }

  /** asteroid_hits_player: the asteroids touching the ship go; on any hit,
      one "damaged", one life fewer, an explosion at the ship, and the game
      over once no life is left. */
  function AsteroidStrike(w: World, frames: int, now: int): (r: World)
    requires WorldOk(w) && frames > 0 && now > 0
    ensures WorldOk(r)
    ensures r.groups == w.groups.(asteroids := r.groups.asteroids, effects := r.groups.effects)
    ensures r.steering == w.steering && r.level == w.level && r.draws == w.draws && r.ship == w.ship
    ensures var hit := Touching(w.groups.asteroids, w.ship) != [];
      && r.groups.asteroids == Clear(w.groups.asteroids, w.ship)
      && r.lives == w.lives - (if hit then 1 else 0)
      && (r.playing <==> w.playing && !(hit && w.lives == 1))
      && (hit && w.lives == 1 ==> r.finalScore == Some(r.score))
      && (!(hit && w.lives == 1) ==> r.finalScore == w.finalScore)
  {
    var hit := Touching(w.groups.asteroids, w.ship) != [];
    StrikeAgainstPlayer(w.groups.asteroids, w.ship);
    var g := w.groups.(asteroids := Clear(w.groups.asteroids, w.ship));
    if !hit then w.(groups := g)
    else
      var score := ScoreAfter(w.score, "damaged");
      var blast := ExplosionBody(Center(w.ship.Bounds()), frames, now);
      var g' := g.(effects := g.effects + [blast]);
      if w.lives - 1 == 0 then
        w.(groups := g', score := score, lives := 0, playing := false, finalScore := Some(score))
      else
        w.(groups := g', score := score, lives := w.lives - 1)
  }

  /** player_gets_powerup: the power-ups touching the ship go; on any hit, a
      glow at the ship and one more life. */
  function PowerUpStrike(w: World, frames: int, now: int): (r: World)
    requires WorldOk(w) && frames > 0 && now > 0
    ensures WorldOk(r)
    ensures r == w.(groups := r.groups, lives := r.lives)
    ensures r.groups == w.groups.(powerups := r.groups.powerups, effects := r.groups.effects)
    ensures r.groups.powerups == Clear(w.groups.powerups, w.ship)
    ensures r.lives == w.lives + (if Touching(w.groups.powerups, w.ship) != [] then 1 else 0)
  {
    var hit := Touching(w.groups.powerups, w.ship) != [];
    StrikeAgainstPlayer(w.groups.powerups, w.ship);
    var g := w.groups.(powerups := Clear(w.groups.powerups, w.ship));
    if !hit then w.(groups := g)
    else
      var glow := PowerUpEffectBody(Center(w.ship.Bounds()), frames, now);
      w.(groups := g.(effects := g.effects + [glow]), lives := w.lives + 1)
  }

  /** is_asteroids_destroyed: with no asteroid left, "level up", the next
      level, and its wave joins the groups. */
  function LevelCheck(w: World, pick: (int, int, nat) -> int, asteroidFrames: int, powerUpFrames: int): (r: World)
    requires WorldOk(w) && UniformRange(pick) && asteroidFrames > 0 && powerUpFrames > 0
    ensures WorldOk(r)
    ensures r == w.(groups := r.groups, score := r.score, level := r.level, draws := r.draws)
    ensures r.level == w.level || r.level == w.level + 1
    ensures r.level == w.level + 1 <==> w.groups.asteroids == []
  {
    if w.groups.asteroids != [] then w
    else
      var wave := Generate(pick, w.draws, w.level + 1, asteroidFrames, powerUpFrames);
      WaveShape(pick, w.draws, w.level + 1, asteroidFrames, powerUpFrames);
      w.(groups := w.groups.(asteroids := wave.enemies, powerups := w.groups.powerups + wave.powerups),
         score := ScoreAfter(w.score, "level up"), level := w.level + 1,
         draws := w.draws + GenerateDraws(pick, w.draws, w.level + 1))
  }

  /** The level check's result spelled out for an empty asteroid group, with
      the wave and the draw count that the level's own update produced. */
  lemma LevelCheckOnEmpty(w: World, pick: (int, int, nat) -> int, asteroidFrames: int, powerUpFrames: int, wave: Wave, draws: nat)
    requires WorldOk(w) && UniformRange(pick) && asteroidFrames > 0 && powerUpFrames > 0
    requires w.groups.asteroids == []
    requires wave == Generate(pick, w.draws, w.level + 1, asteroidFrames, powerUpFrames)
    requires draws == w.draws + GenerateDraws(pick, w.draws, w.level + 1)
    ensures LevelCheck(w, pick, asteroidFrames, powerUpFrames) ==
      w.(groups := w.groups.(asteroids := wave.enemies, powerups := w.groups.powerups + wave.powerups),
         score := ScoreAfter(w.score, "level up"), level := w.level + 1, draws := draws)
  {
  }

  /** The guarded part: while the game is on, animate_groups,
      update_groups (the ship steps on its intent) and clean_groups. */
  function Play(w: World, now: int, pick: (int, int, nat) -> int): (r: World)
    requires WorldOk(w) && UniformRange(pick)
    ensures WorldOk(r)
    ensures !w.playing ==> r == w
    ensures r == w.(groups := r.groups, draws := r.draws, ship := r.ship)
  {
    if !w.playing then w
    else
      var (g, m) := Advanced(w.groups, now, pick, w.draws);
      AdvanceKeepsGroups(w.groups, now, pick, w.draws);
      StepKeepsPlayfield(w.ship.x, w.ship.y, w.steering);
      w.(groups := g, draws := m,
         ship := w.ship.(x := HorizontalStep(w.ship.x, w.steering.horizontal),
                         y := VerticalStep(w.ship.y, w.steering.vertical),
                         clock := Animation(w.ship.clock, now)))
  }

  /** The state after the three checks and the level check. */
  function Checked(w: World, sheets: Sheets, now: int, pick: (int, int, nat) -> int): (r: World)
    requires WorldOk(w) && sheets.Valid() && now > 0 && UniformRange(pick)
    ensures WorldOk(r)
  {
    var w2 := LaserStrike(w, sheets.explosion, now);
    var w3 := AsteroidStrike(w2, sheets.explosion, now);
    var w4 := PowerUpStrike(w3, sheets.effect, now);
    LevelCheck(w4, pick, sheets.asteroid, sheets.powerUp)
  }

  /** One frame: the events, and unless one of them quits, the checks in the
      order laser against asteroid, asteroid against ship, ship against
      power-up, the level check, then the guarded part. */
  function FrameOutcome(w: World, events: seq<Input.Event>, now: int, sheets: Sheets, pick: (int, int, nat) -> int): (r: (World, bool))
    requires WorldOk(w) && sheets.Valid() && now > 0 && UniformRange(pick)
    ensures WorldOk(r.0)
  {
    var (w1, quit) := Fired(w, events, sheets.laser);
    if quit then (w1, true)
    else (Play(Checked(w1, sheets, now, pick), now, pick), false)
  }

  /** What a frame promises, read off its phases: a quitting frame changes
      only the steering, the score and the lasers; otherwise the level goes
      up exactly when the laser sweep and the ship leave no asteroid, the
      game ends exactly when an asteroid touches the ship with one life left,
      the lives change by one per kind of hit, and the ship moves only while
      the game goes on. */
  lemma FrameFacts(w: World, events: seq<Input.Event>, now: int, sheets: Sheets, pick: (int, int, nat) -> int)
    requires WorldOk(w) && sheets.Valid() && now > 0 && UniformRange(pick) && w.playing
    ensures var (r, quit) := FrameOutcome(w, events, now, sheets, pick);
      var w1 := Fired(w, events, sheets.laser).0;
      var swept := LaserStrike(w1, sheets.explosion, now).groups.asteroids;
      var struck := Touching(swept, w.ship) != [];
      var collected := Touching(w1.groups.powerups, w.ship) != [];
      && (quit ==> r == w.(steering := r.steering, score := r.score, groups := w.groups.(lasers := r.groups.lasers)))
      && (!quit ==> (r.level == w.level + 1 <==> Clear(swept, w.ship) == []))
      && (!quit ==> (r.level == w.level || r.level == w.level + 1))
      && (!quit ==> (!r.playing <==> struck && w.lives == 1))
      && (!quit ==> r.lives == w.lives - (if struck then 1 else 0) + (if collected then 1 else 0))
      && (!quit && r.playing ==>
            r.ship.x == HorizontalStep(w.ship.x, w1.steering.horizontal) && r.ship.y == VerticalStep(w.ship.y, w1.steering.vertical))
      && (!quit && !r.playing ==> r.ship == w.ship)
  {
    var (r, quit) := FrameOutcome(w, events, now, sheets, pick);
    var w1 := Fired(w, events, sheets.laser).0;
    if !quit {
      var w2 := LaserStrike(w1, sheets.explosion, now);
      var w3 := AsteroidStrike(w2, sheets.explosion, now);
      var w4 := PowerUpStrike(w3, sheets.effect, now);
      var w5 := LevelCheck(w4, pick, sheets.asteroid, sheets.powerUp);
      assert w2.groups.powerups == w1.groups.powerups;
      assert w3.groups.asteroids == Clear(w2.groups.asteroids, w.ship);
      assert w4.groups.asteroids == w3.groups.asteroids;
      assert r == Play(w5, now, pick);
      assert r.level == w5.level && r.playing == w5.playing && r.lives == w5.lives;
    }
  }

  /** Every frame of a schedule comes with a positive time. */
  predicate Timed(schedule: seq<(seq<Input.Event>, int)>) {
    forall k :: 0 <= k < |schedule| ==> schedule[k].1 > 0
  }

  /** The loop of GameLoop.main from frame i of a schedule on: frames run
      while the game is on, until a quitting event or the end; with the quit
      flag and the number of frames run in all. Over a run the level goes up
      by at most one per frame run and never down, and a run that ends with
      the game still on and no quitting event ran every frame. */
  function RunFrom(w: World, schedule: seq<(seq<Input.Event>, int)>, i: nat, sheets: Sheets, pick: (int, int, nat) -> int): (r: (World, bool, nat))
    requires WorldOk(w) && sheets.Valid() && UniformRange(pick) && Timed(schedule) && i <= |schedule|
    ensures WorldOk(r.0) && i <= r.2 <= |schedule|
    ensures w.level <= r.0.level <= w.level + (r.2 - i)
    ensures !r.1 && r.0.playing ==> r.2 == |schedule|
    ensures !w.playing ==> r == (w, false, i)
    decreases |schedule| - i
  {
    if i == |schedule| || !w.playing then (w, false, i)
    else
      var (w', quit) := FrameOutcome(w, schedule[i].0, schedule[i].1, sheets, pick);
      FrameLevel(w, schedule[i].0, schedule[i].1, sheets, pick);
      if quit then (w', true, i + 1) else RunFrom(w', schedule, i + 1, sheets, pick)
  }

  /** One frame raises the level by at most one and never lowers it. */
  lemma FrameLevel(w: World, events: seq<Input.Event>, now: int, sheets: Sheets, pick: (int, int, nat) -> int)
    requires WorldOk(w) && sheets.Valid() && now > 0 && UniformRange(pick) && w.playing
    ensures w.level <= FrameOutcome(w, events, now, sheets, pick).0.level <= w.level + 1
  {
    FrameFacts(w, events, now, sheets, pick);
  }
}
