/** The game objects of game/object.py: the animation clock every sprite
    carries, the per-kind motion rules, the player's steering, and the score
    and life counters.

    Each rule is stated once as a function on `Body`, the record of one sprite
    (its rect, horizontal speed, remaining life and animation clock). The
    classes below change their fields in place as the Python objects do, and
    each method's contract ties the object's record after the call to the rule
    applied to its record before. The game loop keeps its sprite groups as
    sequences of these records and applies the same rules to them. */
module GameObject {
  import opened Settings
  import opened Rects
  import opened Randomness
  import Input

  /** The fps an AnimatedObject gets when its creator passes none. */
  const DEFAULT_FPS := 10

  // ---------------------------------------------------------------------
  // The animation clock (AnimatedObject)
  // ---------------------------------------------------------------------

  /** The image a sprite shows: the blank surface made at construction, or
      a frame of its sprite sheet. */
  datatype Image = Blank | Frame(index: int)

  /** The animation state of a sprite: the current frame, the time of the last
      frame switch, the image shown, the number of frames of its sheet and
      the fps that sets its delay of 1500/fps milliseconds. */
  datatype Clock = Clock(frame: int, lastUpdate: int, image: Image, frames: int, fps: int)

  predicate ClockValid(c: Clock) {
    && c.frames > 0 && c.fps > 0
    && 0 <= c.frame < c.frames
    && (c.image == Blank || c.image == Frame(c.frame))
  }

  /** The clock of a freshly built sprite. */
  function StartClock(frames: int, fps: int): Clock {
    Clock(0, 0, Blank, frames, fps)
  }

  /** `t - last_update > 1500 / fps`, compared exactly in integers. */
  predicate Due(lastUpdate: int, t: int, fps: int) {
    (t - lastUpdate) * fps > 1500
  }

  /** For a positive fps the integer test is the source's comparison with
      the delay 1500/fps, evaluated over the rationals. */
  lemma DueIsDelayTest(lastUpdate: int, t: int, fps: int)
    requires fps > 0
    ensures Due(lastUpdate, t, fps) <==> (t - lastUpdate) as real > 1500.0 / fps as real
  {
    var d, f := (t - lastUpdate) as real, fps as real;
    var delay := 1500.0 / f;
    assert delay * f == 1500.0;
    assert ((t - lastUpdate) * fps) as real == d * f;
    if d > delay {
      assert d * f > delay * f;
    } else {
      assert d * f <= delay * f;
    }
  }

  /** The frame after `frame`, wrapping to the first after the last. */
  function NextFrame(frame: int, frames: int): (r: int)
    requires 0 <= frame < frames
    ensures r == (frame + 1) % frames
  {
    if frame + 1 >= frames then 0 else frame + 1
  }

  /** AnimatedObject.animate(t): when the delay has passed, show the next
      frame and restart the delay at t; otherwise change nothing. However
      late the call comes, it advances exactly one frame. */
  function Animation(c: Clock, t: int): (r: Clock)
    requires ClockValid(c)
    ensures ClockValid(r) && r.frames == c.frames && r.fps == c.fps
    ensures Due(c.lastUpdate, t, c.fps) ==>
      r.frame == (c.frame + 1) % c.frames && r.image == Frame(r.frame) && r.lastUpdate == t
    ensures !Due(c.lastUpdate, t, c.fps) ==> r == c
  {
    if Due(c.lastUpdate, t, c.fps) then
      var f := NextFrame(c.frame, c.frames);
      c.(frame := f, image := Frame(f), lastUpdate := t)
    else
      c
  }

  /** A second call at the same time never advances again: frames that were
      due are not caught up. */
  lemma AnimateOncePerInstant(c: Clock, t: int)
    requires ClockValid(c)
    ensures Animation(Animation(c, t), t) == Animation(c, t)
  {
  }

  // ---------------------------------------------------------------------
  // Sprite records and the per-kind rules
  // ---------------------------------------------------------------------

  /** One sprite: rect position and size, horizontal speed, remaining life
      (used by the effect kinds only) and animation clock. */
  datatype Body = Body(x: int, y: int, w: int, h: int, speed: int, life: int, clock: Clock) {
    function Bounds(): Rect {
      Rect(x, y, w, h)
    }
  }

  const LASER_SPEED := 30
  const SPACE_SPEED := 1
  const POWER_UP_SPEED := 3
  const EXPLOSION_LIFE := 15
  const POWER_UP_EFFECT_LIFE := 8

  /** The laser made by `Laser(LASER_SPRITE, position)`: centred on position,
      then moved 5 pixels down. */
  function LaserBody(position: (int, int), frames: int, fps: int): (b: Body)
  {
    var r := CenteredAt(position.0, position.1, LASER_SPRITE.w, LASER_SPRITE.h);
    Body(r.x, r.y + 5, r.w, r.h, LASER_SPEED, 0, StartClock(frames, fps))
  }

  /** A background tile with its top-left corner at (x, y). */
  function SpaceBody(x: int, y: int, frames: int, fps: int): Body {
    Body(x, y, SPACE_SPRITE.w, SPACE_SPRITE.h, SPACE_SPEED, 0, StartClock(frames, fps))
  }

  /** An explosion centred on the centre of the object it replaces. */
  function ExplosionBody(center: (int, int), frames: int, fps: int): Body {
    var r := CenteredAt(center.0, center.1, EXPLOSION_SPRITE.w, EXPLOSION_SPRITE.h);
    Body(r.x, r.y, r.w, r.h, 0, EXPLOSION_LIFE, StartClock(frames, fps))
  }

  /** The glow shown where the player picked a power-up. */
  function PowerUpEffectBody(center: (int, int), frames: int, fps: int): Body {
    var r := CenteredAt(center.0, center.1, POWER_UP_EFFECT_SPRITE.w, POWER_UP_EFFECT_SPRITE.h);
    Body(r.x, r.y, r.w, r.h, 0, POWER_UP_EFFECT_LIFE, StartClock(frames, fps))
  }

  /** An asteroid with its top-left corner at (x, y) moving left by speed. */
  function AsteroidBody(x: int, y: int, speed: int, frames: int, fps: int): Body {
    Body(x, y, ASTEROID_SPRITE.w, ASTEROID_SPRITE.h, speed, 0, StartClock(frames, fps))
  }

  /** A power-up with its top-left corner at (x, y). */
  function PowerUpBody(x: int, y: int, frames: int, fps: int): Body {
    Body(x, y, POWER_UP_SPRITE.w, POWER_UP_SPRITE.h, POWER_UP_SPEED, 0, StartClock(frames, fps))
  }

  /** Laser.update: fly right by its speed until the right screen edge. */
  function LaserUpdate(b: Body): (r: Body)
    ensures r == b <==> b.x >= WIDTH || b.speed == 0
    ensures r == b.(x := r.x)
    ensures b.speed >= 0 ==> b.x <= r.x <= b.x + b.speed
    ensures b.x < WIDTH ==> r.x == b.x + b.speed
  {
    if b.x < WIDTH then b.(x := b.x + b.speed) else b
  }

  /** Space.update: scroll left by its speed; a tile that has gone a whole
      screen width off to the left jumps to the right of the screen. */
  function SpaceUpdate(b: Body): (r: Body)
    ensures r == b.(x := r.x)
    ensures b.x <= -WIDTH ==> r.x == WIDTH
    ensures b.x > -WIDTH ==> r.x == b.x - b.speed
    ensures b.speed == SPACE_SPEED && -WIDTH <= b.x <= WIDTH ==> -WIDTH <= r.x <= WIDTH
  {
    if b.x <= -WIDTH then b.(x := WIDTH) else b.(x := b.x - b.speed)
  }

  /** PowerUp.update: drift left by its speed while right of x = -10. */
  function PowerUpUpdate(b: Body): (r: Body)
    ensures r == b.(x := r.x)
    ensures b.x > -10 ==> r.x == b.x - b.speed
    ensures b.x <= -10 ==> r == b
  {
    if b.x > -10 then b.(x := b.x - b.speed) else b
  }

  /** Explosion.update and PowerUpEffect.update: one tick of life is used up. */
  function EffectUpdate(b: Body): (r: Body)
    ensures r == b.(life := r.life) && r.life == b.life - 1
  {
    b.(life := b.life - 1)
  }

  /** Asteroid.update: move left by its speed while right of x = 0; at or left
      of 0, come back at (spawnX, spawnY), the two numbers respawn() draws. */
  function AsteroidUpdate(b: Body, spawnX: int, spawnY: int): (r: Body)
    ensures b.x > 0 ==> r == b.(x := b.x - b.speed)
    ensures b.x <= 0 ==> r == b.(x := spawnX, y := spawnY)
  {
    if b.x > 0 then b.(x := b.x - b.speed) else b.(x := spawnX, y := spawnY)
  }

  /** The respawn ranges of Asteroid.respawn. */
  predicate RespawnPoint(x: int, y: int) {
    600 <= x <= 1000 && 20 <= y <= 360
  }

  /** An asteroid never stays at or left of the screen's left edge: one update
      either keeps it moving left at its speed or brings it back on the right. */
  lemma AsteroidComesBack(b: Body, spawnX: int, spawnY: int)
    requires 3 <= b.speed <= 6 && RespawnPoint(spawnX, spawnY)
    ensures var r := AsteroidUpdate(b, spawnX, spawnY);
      if b.x > 0 then b.x - 6 <= r.x < b.x && r.y == b.y else RespawnPoint(r.x, r.y)
  {
  }

  // ---------------------------------------------------------------------
  // The player's steering
  // ---------------------------------------------------------------------

  /** The strings "STILL", "UP", "DOWN", "LEFT" and "RIGHT" the player's
      `vertical` and `horizontal` fields hold. */
  datatype Direction = Still | Up | Down | Left | Right

  /** The pair of fields `vertical` and `horizontal`. */
  datatype Intent = Intent(vertical: Direction, horizontal: Direction)

  /** Player.move(key): an arrow key sets the direction of its own axis. */
  function Steer(i: Intent, key: Input.Key): (r: Intent)
    ensures (key == Input.Up || key == Input.Down) ==> r.horizontal == i.horizontal
    ensures (key == Input.Left || key == Input.Right) ==> r.vertical == i.vertical
    ensures key == Input.Up ==> r == i.(vertical := Up)
    ensures key == Input.Down ==> r == i.(vertical := Down)
    ensures key == Input.Left ==> r == i.(horizontal := Left)
    ensures key == Input.Right ==> r == i.(horizontal := Right)
    ensures !Input.IsArrow(key) ==> r == i
  {
    if key == Input.Up then i.(vertical := Up)
    else if key == Input.Down then i.(vertical := Down)
    else if key == Input.Left then i.(horizontal := Left)
    else if key == Input.Right then i.(horizontal := Right)
    else i
  }

  /** Player.stop_moving(key): releasing either key of an axis stops that
      axis, whichever of its two keys was the one pressed. */
  function Release(i: Intent, key: Input.Key): (r: Intent)
    ensures (key == Input.Up || key == Input.Down) ==> r == i.(vertical := Still)
    ensures (key == Input.Left || key == Input.Right) ==> r == i.(horizontal := Still)
    ensures !Input.IsArrow(key) ==> r == i
  {
    var v := if key == Input.Up || key == Input.Down then Still else i.vertical;
    var h := if key == Input.Left || key == Input.Right then Still else i.horizontal;
    Intent(v, h)
  }

  /** Pressing and then releasing any arrow key leaves that axis still and
      the other axis as it was. */
  lemma SteerThenRelease(i: Intent, pressed: Input.Key, released: Input.Key)
    requires Input.IsArrow(pressed) && Input.IsArrow(released)
    ensures var r := Release(Steer(i, pressed), released);
      (released == Input.Up || released == Input.Down) ==>
        (r.vertical == Still && r.horizontal == Steer(i, pressed).horizontal)
  {
  }

  /** The player's speed in both axes, `[5, 5]` in the source. */
  const PLAYER_SPEED := 5

  /** The vertical half of Player.update: move one step up or down unless
      already at or beyond the limit in that direction. */
  function VerticalStep(y: int, vertical: Direction): (r: int)
    ensures y - PLAYER_SPEED <= r <= y + PLAYER_SPEED
    ensures y <= LIMIT_UP ==> r >= y
    ensures y >= LIMIT_DOWN ==> r <= y
    ensures vertical == Up ==> r == if y <= LIMIT_UP then y else y - PLAYER_SPEED
    ensures vertical == Down ==> r == if y >= LIMIT_DOWN then y else y + PLAYER_SPEED
    ensures vertical != Up && vertical != Down ==> r == y
  {
    if vertical == Up then (if y <= LIMIT_UP then y else y - PLAYER_SPEED)
    else if vertical == Down then (if y >= LIMIT_DOWN then y else y + PLAYER_SPEED)
    else y
  }

  /** The horizontal half of Player.update. */
  function HorizontalStep(x: int, horizontal: Direction): (r: int)
    ensures x - PLAYER_SPEED <= r <= x + PLAYER_SPEED
    ensures x <= LIMIT_LEFT ==> r >= x
    ensures x >= LIMIT_RIGHT ==> r <= x
    ensures horizontal == Left ==> r == if x <= LIMIT_LEFT then x else x - PLAYER_SPEED
    ensures horizontal == Right ==> r == if x >= LIMIT_RIGHT then x else x + PLAYER_SPEED
    ensures horizontal != Left && horizontal != Right ==> r == x
  {
    if horizontal == Left then (if x <= LIMIT_LEFT then x else x - PLAYER_SPEED)
    else if horizontal == Right then (if x >= LIMIT_RIGHT then x else x + PLAYER_SPEED)
    else x
  }

  /** The clamp lets the ship overshoot a limit by less than one step. */
  predicate WithinMargin(x: int, y: int) {
    LIMIT_LEFT - PLAYER_SPEED < x < LIMIT_RIGHT + PLAYER_SPEED &&
    LIMIT_UP - PLAYER_SPEED < y < LIMIT_DOWN + PLAYER_SPEED
  }

  lemma StepKeepsMargin(x: int, y: int, i: Intent)
    requires WithinMargin(x, y)
    ensures WithinMargin(HorizontalStep(x, i.horizontal), VerticalStep(y, i.vertical))
  {
  }

  /** From its start (0, 200), on the grid of its step 5, the ship stays
      inside the limits exactly: every limit is itself on that grid. */
  predicate InPlayfield(x: int, y: int) {
    && LIMIT_LEFT <= x <= LIMIT_RIGHT && LIMIT_UP <= y <= LIMIT_DOWN
    && x % PLAYER_SPEED == 0 && y % PLAYER_SPEED == 0
  }

  lemma StepKeepsPlayfield(x: int, y: int, i: Intent)
    requires InPlayfield(x, y)
    ensures InPlayfield(HorizontalStep(x, i.horizontal), VerticalStep(y, i.vertical))
  {
  }

  // ---------------------------------------------------------------------
  // Score and life
  // ---------------------------------------------------------------------

  /** The score after Score.game_score(event). */
  function ScoreAfter(score: int, event: string): (r: int)
    ensures score >= 0 ==> r >= 0
    ensures r < score ==> (event == "fire" && r == score - 1) || (event == "damaged" && r == score - 50 && r > 0)
    ensures r > score ==> (event == "kill" && r == score + 100) || (event == "level up" && r == score + 1000)
  {
    if event == "fire" then (if score > 0 then score - 1 else score)
    else if event == "damaged" then (if score > 50 then score - 50 else score)
    else if event == "kill" then score + 100
    else if event == "level up" then score + 1000
    else score
  }

  /** The four events and their guards; any other string changes nothing. */
  lemma ScoreEvents(score: int, event: string)
    ensures ScoreAfter(score, "fire") == if score > 0 then score - 1 else score
    ensures ScoreAfter(score, "damaged") == if score > 50 then score - 50 else score
    ensures ScoreAfter(score, "kill") == score + 100
    ensures ScoreAfter(score, "level up") == score + 1000
    ensures event !in ["fire", "damaged", "kill", "level up"] ==> ScoreAfter(score, event) == score
  {
  }

  /** The score after a run of events, applied in order. */
  function ScoreAfterAll(score: int, events: seq<string>): int
    decreases |events|
  {
    if events == [] then score else ScoreAfterAll(ScoreAfter(score, events[0]), events[1..])
  }

  /** No run of events makes a non-negative score negative. */
  lemma {:induction false} ScoreStaysNonNegative(score: int, events: seq<string>)
    requires score >= 0
    ensures ScoreAfterAll(score, events) >= 0
    decreases |events|
  {
    if events != [] {
      ScoreStaysNonNegative(ScoreAfter(score, events[0]), events[1..]);
    }
  }

  // ---------------------------------------------------------------------
  // The classes
  // ---------------------------------------------------------------------

  /** AnimatedObject: the rect and animation clock every sprite has. */
  class AnimatedObject {
    var x: int
    var y: int
    const w: int
    const h: int
    var frame: int
    var lastUpdate: int
    var image: Image
    /** len(self._images), the number of frames sliced from the sheet. */
    const frames: int
    const fps: int

    function ClockState(): Clock
      reads this
    {
      Clock(frame, lastUpdate, image, frames, fps)
    }

    function Bounds(): Rect
      reads this
    {
      Rect(x, y, w, h)
    }

    ghost predicate Valid()
      reads this
    {
      ClockValid(ClockState()) && w >= 0 && h >= 0
    }

    /** The rect starts at (0, 0) with the size of one frame. */
    constructor (size: Size, frames: int, fps: int)
      requires size.w >= 0 && size.h >= 0 && frames > 0 && fps > 0
      ensures Valid()
      ensures x == 0 && y == 0 && w == size.w && h == size.h
      ensures ClockState() == StartClock(frames, fps)
    {
      x, y := 0, 0;
      w, h := size.w, size.h;
      frame, lastUpdate, image := 0, 0, Blank;
      this.frames, this.fps := frames, fps;
    }

    method Animate(t: int)
      requires Valid()
      modifies this
      ensures Valid()
      ensures ClockState() == Animation(old(ClockState()), t)
      ensures x == old(x) && y == old(y)
    {
      if (t - lastUpdate) * fps > 1500 {
        frame := frame + 1;
        if frame >= frames {
          frame := 0;
        }
        image := Frame(frame);
        lastUpdate := t;
      }
    }
  }

  class Score {
    var score: int

    constructor ()
      ensures score == 0
    {
      score := 0;
    }

    method GameScore(event: string)
      modifies this
      ensures score == ScoreAfter(old(score), event)
    {
      if event == "fire" {
        if score > 0 {
          score := score - 1;
        }
      } else if event == "damaged" {
        if score > 50 {
          score := score - 50;
        }
      } else if event == "kill" {
        score := score + 100;
      } else if event == "level up" {
        score := score + 1000;
      }
    }
  }

  class Life {
    var life: int

    /** Three lives at the start. */
    constructor ()
      ensures life == 3
    {
      life := 3;
    }

    /** One more life, without any upper bound. */
    method ExtraLife()
      modifies this
      ensures life == old(life) + 1
    {
      life := life + 1;
    }

    /** One life less, without any check; the caller decides about game over. */
    method LoseLife()
      modifies this
      ensures life == old(life) - 1
    {
      life := life - 1;
    }
  }

  /** Losing a life and gaining one back restores the count. */
  method LoseThenGain(l: Life)
    modifies l
    ensures l.life == old(l.life)
  {
    l.LoseLife();
    l.ExtraLife();
  }

  class Player {
    const sprite: AnimatedObject
    var vertical: Direction
    var horizontal: Direction
    const life: Life
    const score: Score

    ghost predicate Valid()
      reads this, sprite
    {
      sprite.Valid() && sprite.w == PLAYER_SPRITE.w && sprite.h == PLAYER_SPRITE.h
    }

    function Steering(): Intent
      reads this
    {
      Intent(vertical, horizontal)
    }

    /** The ship as a sprite record, the form the collision tests take. */
    function Record(): Body
      reads this, sprite
    {
      Body(sprite.x, sprite.y, sprite.w, sprite.h, PLAYER_SPEED, 0, sprite.ClockState())
    }

    /** The ship starts still at (0, 200) with three lives and no score. */
    constructor (frames: int, fps: int)
      requires frames > 0 && fps > 0
      ensures Valid() && fresh(sprite) && fresh(life) && fresh(score)
      ensures sprite.x == 0 && sprite.y == 200 && sprite.ClockState() == StartClock(frames, fps)
      ensures vertical == Still && horizontal == Still
      ensures life.life == 3 && score.score == 0
    {
      var s := new AnimatedObject(PLAYER_SPRITE, frames, fps);
      s.x, s.y := 0, 200;
      sprite := s;
      vertical, horizontal := Still, Still;
      life := new Life();
      score := new Score();
    }

    /** Player.update: one step along each commanded axis, held at the limits. */
    method Update()
      requires Valid()
      modifies sprite
      ensures Valid()
      ensures sprite.y == VerticalStep(old(sprite.y), vertical)
      ensures sprite.x == HorizontalStep(old(sprite.x), horizontal)
      ensures sprite.ClockState() == old(sprite.ClockState())
    {
      if vertical == Up {
        if !(sprite.y <= LIMIT_UP) {
          sprite.y := sprite.y - PLAYER_SPEED;
        }
      } else if vertical == Down {
        if !(sprite.y >= LIMIT_DOWN) {
          sprite.y := sprite.y + PLAYER_SPEED;
        }
      }
      if horizontal == Left {
        if !(sprite.x <= LIMIT_LEFT) {
          sprite.x := sprite.x - PLAYER_SPEED;
        }
      } else if horizontal == Right {
        if !(sprite.x >= LIMIT_RIGHT) {
          sprite.x := sprite.x + PLAYER_SPEED;
        }
      }
    }

    method Move(key: Input.Key)
      modifies this
      ensures Steering() == Steer(old(Steering()), key)
    {
      if key == Input.Up {
        vertical := Up;
      } else if key == Input.Down {
        vertical := Down;
      } else if key == Input.Left {
        horizontal := Left;
      } else if key == Input.Right {
        horizontal := Right;
      }
    }

    method StopMoving(key: Input.Key)
      modifies this
      ensures Steering() == Release(old(Steering()), key)
    {
      if key == Input.Up || key == Input.Down {
        vertical := Still;
      }
      if key == Input.Left || key == Input.Right {
        horizontal := Still;
      }
    }

    method UpdateScore(event: string)
      modifies score
      ensures score.score == ScoreAfter(old(score.score), event)
    {
      score.GameScore(event);
    }

    function GetScore(): int
      reads score
    {
      score.score
    }

    method GetExtraLife()
      modifies life
      ensures life.life == old(life.life) + 1
    {
      life.ExtraLife();
    }

    method LoseLife()
      modifies life
      ensures life.life == old(life.life) - 1
    {
      life.LoseLife();
    }

    function LivesLeft(): int
      reads life
    {
      life.life
    }
  }

  class Laser {
    const sprite: AnimatedObject

    ghost function Record(): Body
      reads this, sprite
    {
      Body(sprite.x, sprite.y, sprite.w, sprite.h, LASER_SPEED, 0, sprite.ClockState())
    }

    ghost predicate Valid()
      reads this, sprite
    {
      sprite.Valid()
    }

    /** Laser(sprite, position): centred on position, then 5 pixels lower. */
    constructor (position: (int, int), frames: int, fps: int)
      requires frames > 0 && fps > 0
      ensures Valid() && fresh(sprite)
      ensures Record() == LaserBody(position, frames, fps)
    {
      var s := new AnimatedObject(LASER_SPRITE, frames, fps);
      var r := CenteredAt(position.0, position.1, LASER_SPRITE.w, LASER_SPRITE.h);
      s.x, s.y := r.x, r.y;
      s.y := s.y + 5;
      sprite := s;
    }

    method Update()
      requires Valid()
      modifies sprite
      ensures Valid()
      ensures Record() == LaserUpdate(old(Record()))
    {
      if sprite.x < WIDTH {
        sprite.x := sprite.x + LASER_SPEED;
      }
    }
  }

  class Space {
    const sprite: AnimatedObject

    ghost function Record(): Body
      reads this, sprite
    {
      Body(sprite.x, sprite.y, sprite.w, sprite.h, SPACE_SPEED, 0, sprite.ClockState())
    }

    ghost predicate Valid()
      reads this, sprite
    {
      sprite.Valid()
    }

    constructor (position: (int, int), frames: int, fps: int)
      requires frames > 0 && fps > 0
      ensures Valid() && fresh(sprite)
      ensures Record() == SpaceBody(position.0, position.1, frames, fps)
    {
      var s := new AnimatedObject(SPACE_SPRITE, frames, fps);
      s.x, s.y := position.0, position.1;
      sprite := s;
    }

    method Update()
      requires Valid()
      modifies sprite
      ensures Valid()
      ensures Record() == SpaceUpdate(old(Record()))
    {
      if sprite.x <= -WIDTH {
        sprite.x := WIDTH;
      } else {
        sprite.x := sprite.x - SPACE_SPEED;
      }
    }
  }

  class Explosion {
    const sprite: AnimatedObject
    var life: int

    ghost function Record(): Body
      reads this, sprite
    {
      Body(sprite.x, sprite.y, sprite.w, sprite.h, 0, life, sprite.ClockState())
    }

    ghost predicate Valid()
      reads this, sprite
    {
      sprite.Valid()
    }

    /** Explosion(object, sprite, fps): centred where `object` is centred. */
    constructor (center: (int, int), frames: int, fps: int)
      requires frames > 0 && fps > 0
      ensures Valid() && fresh(sprite)
      ensures Record() == ExplosionBody(center, frames, fps)
    {
      var s := new AnimatedObject(EXPLOSION_SPRITE, frames, fps);
      var r := CenteredAt(center.0, center.1, EXPLOSION_SPRITE.w, EXPLOSION_SPRITE.h);
      s.x, s.y := r.x, r.y;
      sprite := s;
      life := EXPLOSION_LIFE;
    }

    method Update()
      modifies this
      ensures Record() == EffectUpdate(old(Record()))
    {
      life := life - 1;
    }
  }

  class PowerUpEffect {
    const sprite: AnimatedObject
    var life: int

    ghost function Record(): Body
      reads this, sprite
    {
      Body(sprite.x, sprite.y, sprite.w, sprite.h, 0, life, sprite.ClockState())
    }

    ghost predicate Valid()
      reads this, sprite
    {
      sprite.Valid()
    }

    constructor (center: (int, int), frames: int, fps: int)
      requires frames > 0 && fps > 0
      ensures Valid() && fresh(sprite)
      ensures Record() == PowerUpEffectBody(center, frames, fps)
    {
      var s := new AnimatedObject(POWER_UP_EFFECT_SPRITE, frames, fps);
      var r := CenteredAt(center.0, center.1, POWER_UP_EFFECT_SPRITE.w, POWER_UP_EFFECT_SPRITE.h);
      s.x, s.y := r.x, r.y;
      sprite := s;
      life := POWER_UP_EFFECT_LIFE;
    }

    method Update()
      modifies this
      ensures Record() == EffectUpdate(old(Record()))
    {
      life := life - 1;
    }
  }

  class Asteroid {
    const sprite: AnimatedObject
    /** speed[0]; speed[1] is 0 and unused. */
    const speed: int

    ghost function Record(): Body
      reads this, sprite
    {
      Body(sprite.x, sprite.y, sprite.w, sprite.h, speed, 0, sprite.ClockState())
    }

    ghost predicate Valid()
      reads this, sprite
    {
      sprite.Valid()
    }

    constructor (position: (int, int), speed: int, frames: int, fps: int)
      requires frames > 0 && fps > 0
      ensures Valid() && fresh(sprite)
      ensures Record() == AsteroidBody(position.0, position.1, speed, frames, fps)
    {
      var s := new AnimatedObject(ASTEROID_SPRITE, frames, fps);
      s.x, s.y := position.0, position.1;
      sprite := s;
      this.speed := speed;
    }

    /** Asteroid.update; a respawn makes two draws, x before y. */
    method Update(rng: Random)
      requires Valid() && rng.Valid()
      modifies sprite, rng
      ensures Valid() && rng.Valid()
      ensures old(sprite.x) > 0 ==>
        Record() == old(Record()).(x := old(sprite.x) - speed) && rng.draws == old(rng.draws)
      ensures old(sprite.x) <= 0 ==>
        Record() == AsteroidUpdate(old(Record()), rng.pick(600, 1000, old(rng.draws)), rng.pick(20, 360, old(rng.draws) + 1)) &&
        rng.draws == old(rng.draws) + 2 && RespawnPoint(sprite.x, sprite.y)
    {
      if !(sprite.x <= 0) {
        sprite.x := sprite.x - speed;
      } else {
        var spawnX, spawnY := Respawn(rng);
        sprite.x, sprite.y := spawnX, spawnY;
      }
    }

    /** Asteroid.respawn: a random point on the right, off screen. */
    static method Respawn(rng: Random) returns (x: int, y: int)
      requires rng.Valid()
      modifies rng
      ensures rng.Valid() && RespawnPoint(x, y)
      ensures x == rng.pick(600, 1000, old(rng.draws)) && y == rng.pick(20, 360, old(rng.draws) + 1)
      ensures rng.draws == old(rng.draws) + 2
    {
      x := rng.RandInt(600, 1000);
      y := rng.RandInt(20, 360);
    }
  }

  class PowerUp {
    const sprite: AnimatedObject

    ghost function Record(): Body
      reads this, sprite
    {
      Body(sprite.x, sprite.y, sprite.w, sprite.h, POWER_UP_SPEED, 0, sprite.ClockState())
    }

    ghost predicate Valid()
      reads this, sprite
    {
      sprite.Valid()
    }

    constructor (position: (int, int), frames: int, fps: int)
      requires frames > 0 && fps > 0
      ensures Valid() && fresh(sprite)
      ensures Record() == PowerUpBody(position.0, position.1, frames, fps)
    {
      var s := new AnimatedObject(POWER_UP_SPRITE, frames, fps);
      s.x, s.y := position.0, position.1;
      sprite := s;
    }

    method Update()
      requires Valid()
      modifies sprite
      ensures Valid()
      ensures Record() == PowerUpUpdate(old(Record()))
    {
      if sprite.x > -10 {
        sprite.x := sprite.x - POWER_UP_SPEED;
      }
    }
  }
}
