/** The rules GameLoop (killerasteroids/display.py) applies to its sprite
    groups in one pass of its main loop, stated on values: what each kind of
    sprite looks like between two frames, what the events do, what a hit
    leaves behind, the asteroid update with its random draws, and what the
    clean-up keeps. */
module GameRules {
  import opened Settings
  import opened Rects
  import opened Util
  import opened Randomness
  import opened GameObject
  import opened Collide
  import Input

  /** The number of frames sliced from each sprite sheet; the source reads
      them from the image files. */
  datatype Sheets = Sheets(player: int, laser: int, space: int, explosion: int, effect: int, asteroid: int, powerUp: int) {
    predicate Valid() {
      player > 0 && laser > 0 && space > 0 && explosion > 0 && effect > 0 && asteroid > 0 && powerUp > 0
    }
  }

  // ---------------------------------------------------------------------
  // Each kind of sprite between two frames
  // ---------------------------------------------------------------------

  /** A laser still on screen. It leaves the ship at an x that is 3 more than
      a multiple of 5 and moves by 30, so it never stops at x == WIDTH, where
      Laser.update would stop moving it and clean_groups would keep it. */
  predicate LaserFlying(b: Body) {
    && b.w == LASER_SPRITE.w && b.h == LASER_SPRITE.h && b.speed == LASER_SPEED
    && b.x < WIDTH && b.x % PLAYER_SPEED == 3 && ClockValid(b.clock)
  }

  /** An asteroid of a level: its size and speed stay as made, and it is never
      farther left than one step past the left edge. */
  predicate AsteroidLive(b: Body) {
    && b.w == ASTEROID_SPRITE.w && b.h == ASTEROID_SPRITE.h && 3 <= b.speed <= 6
    && -6 < b.x <= 2000 && 20 <= b.y <= LIMIT_DOWN && ClockValid(b.clock)
  }

  /** A power-up that has not yet left the screen on the left. */
  predicate PowerUpLive(b: Body) {
    && b.w == POWER_UP_SPRITE.w && b.h == POWER_UP_SPRITE.h && b.speed == POWER_UP_SPEED
    && 0 <= b.x <= 2000 && ClockValid(b.clock)
  }

  /** An explosion or power-up glow with life left. */
  predicate EffectLive(b: Body) {
    b.life >= 1 && b.w >= 0 && b.h >= 0 && ClockValid(b.clock)
  }

  /** A background tile, within one screen width of the screen. */
  predicate SpaceTile(b: Body) {
    b.speed == SPACE_SPEED && -WIDTH <= b.x <= WIDTH && ClockValid(b.clock)
  }

  predicate AllLasers(s: seq<Body>) { forall b :: b in s ==> LaserFlying(b) }
  predicate AllAsteroids(s: seq<Body>) { forall b :: b in s ==> AsteroidLive(b) }
  predicate AllPowerUps(s: seq<Body>) { forall b :: b in s ==> PowerUpLive(b) }
  predicate AllEffects(s: seq<Body>) { forall b :: b in s ==> EffectLive(b) }
  predicate AllSpaces(s: seq<Body>) { forall b :: b in s ==> SpaceTile(b) }

  /** The ship's rect, 92 by 36 at its position. */
  function ShipRect(x: int, y: int): Rect {
    Rect(x, y, PLAYER_SPRITE.w, PLAYER_SPRITE.h)
  }

  // ---------------------------------------------------------------------
  // Events
  // ---------------------------------------------------------------------

  /** What the event loop changes: the ship's steering, the score and the
      laser group. */
  datatype Controls = Controls(steering: Intent, score: int, lasers: seq<Body>)

  /** The window's close button and the escape key end the program. */
  predicate Quits(e: Input.Event) {
    e == Input.Quit || e == Input.KeyDown(Input.Escape)
  }

  /** A press or a release of an arrow key. */
  predicate ArrowEvent(e: Input.Event) {
    (e.KeyDown? || e.KeyUp?) && Input.IsArrow(e.key)
  }

  /** One event that does not quit. Releasing an arrow stops its axis,
      pressing one steers, space fires a laser from the ship's centre at the
      cost of a point. P opens the pause menu, whose own loop is not part of
      this model, so here it changes nothing. */
  function OnEvent(c: Controls, e: Input.Event, center: (int, int), laserFrames: int): Controls {
    match e
    case Quit => c
    case KeyUp(k) => if Input.IsArrow(k) then c.(steering := Release(c.steering, k)) else c
    case KeyDown(k) =>
      if Input.IsArrow(k) then c.(steering := Steer(c.steering, k))
      else if k == Input.Space then
        c.(score := ScoreAfter(c.score, "fire"), lasers := c.lasers + [LaserBody(center, laserFrames, DEFAULT_FPS)])
      else c
  }

  /** Only an arrow changes the steering, pressing one steers and releasing
      one stops its axis; only space changes the score and the lasers, by one
      "fire" and one laser from the ship's centre. */
  lemma OnEventEffect(c: Controls, e: Input.Event, center: (int, int), laserFrames: int)
    ensures var r := OnEvent(c, e, center, laserFrames);
      && (r.steering != c.steering ==> ArrowEvent(e))
      && (e.KeyDown? && Input.IsArrow(e.key) ==> r.steering == Steer(c.steering, e.key))
      && (e.KeyUp? && Input.IsArrow(e.key) ==> r.steering == Release(c.steering, e.key))
      && (e == Input.KeyDown(Input.Space) ==>
            r.score == ScoreAfter(c.score, "fire") && r.lasers == c.lasers + [LaserBody(center, laserFrames, DEFAULT_FPS)])
      && (e != Input.KeyDown(Input.Space) ==> r.score == c.score && r.lasers == c.lasers)
  {
  }

  /** The events of one frame in order; the first quitting event stops the
      program at once (sys.exit), and the flag says whether one came. */
  function OnEvents(c: Controls, events: seq<Input.Event>, center: (int, int), laserFrames: int): (Controls, bool)
    decreases |events|
  {
    if events == [] then (c, false)
    else if Quits(events[0]) then (c, true)
    else OnEvents(OnEvent(c, events[0], center, laserFrames), events[1..], center, laserFrames)
  }

  /** One "fire" score event for each press of space before any quitting
      event. */
  function Fires(events: seq<Input.Event>): seq<string>
    decreases |events|
  {
    if events == [] || Quits(events[0]) then []
    else (if events[0] == Input.KeyDown(Input.Space) then ["fire"] else []) + Fires(events[1..])
  }

  /** A frame's events fire one laser per press of space, each from the same
      point, add them after the lasers already flying, and charge one "fire"
      score event per press, in order; the quit flag says whether a quitting
      event is among them. */
  lemma {:induction false} EventsFire(c: Controls, events: seq<Input.Event>, center: (int, int), laserFrames: int)
    ensures var (r, quit) := OnEvents(c, events, center, laserFrames);
      && |r.lasers| == |c.lasers| + |Fires(events)|
      && r.lasers[..|c.lasers|] == c.lasers
      && (forall k :: |c.lasers| <= k < |r.lasers| ==> r.lasers[k] == LaserBody(center, laserFrames, DEFAULT_FPS))
      && r.score == ScoreAfterAll(c.score, Fires(events))
      && (quit <==> exists k :: 0 <= k < |events| && Quits(events[k]))
    decreases |events|
  {
    if events != [] && !Quits(events[0]) {
      var c' := OnEvent(c, events[0], center, laserFrames);
      var tail := events[1..];
      EventsFire(c', tail, center, laserFrames);
      var (r, quit) := OnEvents(c', tail, center, laserFrames);
      assert r.lasers[..|c'.lasers|][..|c.lasers|] == r.lasers[..|c.lasers|];
      var fires := Fires(events);
      if events[0] == Input.KeyDown(Input.Space) {
        assert fires[0] == "fire" && fires[1..] == Fires(tail);
      } else {
        assert fires == Fires(tail);
        assert c'.score == c.score;
      }
      assert quit <==> exists k :: 0 <= k < |events| && Quits(events[k]) by {
        if quit {
          var k :| 0 <= k < |tail| && Quits(tail[k]);
          assert Quits(events[k + 1]);
        }
        forall k | 0 <= k < |events| && Quits(events[k])
          ensures quit
        {
          assert k > 0 && Quits(tail[k - 1]);
        }
      }
    } else if events != [] {
      assert Quits(events[0]);
    }
  }

  /** Fired from the ship at (x, y) in the playfield, a laser starts at
      (x + 38, y + 15) and is a flying laser. */
  lemma ShipLaser(x: int, y: int, laserFrames: int)
    requires InPlayfield(x, y) && laserFrames > 0
    ensures var b := LaserBody(Center(ShipRect(x, y)), laserFrames, DEFAULT_FPS);
      b.x == x + 38 && b.y == y + 15 && LaserFlying(b)
  {
  }

  /** A frame's events keep every laser flying. */
  lemma EventsKeepLasers(c: Controls, events: seq<Input.Event>, center: (int, int), laserFrames: int)
    requires AllLasers(c.lasers) && LaserFlying(LaserBody(center, laserFrames, DEFAULT_FPS))
    ensures AllLasers(OnEvents(c, events, center, laserFrames).0.lasers)
  {
    EventsFire(c, events, center, laserFrames);
    var r := OnEvents(c, events, center, laserFrames).0;
    forall b | b in r.lasers
      ensures LaserFlying(b)
    {
      var k :| 0 <= k < |r.lasers| && r.lasers[k] == b;
      if k < |c.lasers| {
        assert r.lasers[..|c.lasers|][k] == b;
      }
    }
  }

  // ---------------------------------------------------------------------
  // Hits
  // ---------------------------------------------------------------------

  /** Each entry of the collision dictionary has at least one asteroid, of a
      non-negative size. */
  predicate Blastable(hits: seq<Claim>) {
    forall c :: c in hits ==> c.taken != [] && c.taken[0].w >= 0 && c.taken[0].h >= 0
  }

  /** One explosion per laser that hit, centred on the first asteroid it took,
      made with fps = now as the source passes the clock's ticks. */
  function Blasts(hits: seq<Claim>, frames: int, now: int): (r: seq<Body>)
    requires Blastable(hits)
    ensures |r| == |hits|
    ensures forall k :: 0 <= k < |hits| ==> r[k] == ExplosionBody(Center(hits[k].taken[0].Bounds()), frames, now)
    decreases |hits|
  {
    if hits == [] then []
    else [ExplosionBody(Center(hits[0].taken[0].Bounds()), frames, now)] + Blasts(hits[1..], frames, now)
  }

  /** The lasers left after the sweep are lasers that were flying, the
      asteroids left are asteroids that were live (none of them overlapping
      any laser), and every hit took a live asteroid. */
  lemma SweepKeeps(lasers: seq<Body>, asteroids: seq<Body>)
    requires AllLasers(lasers) && AllAsteroids(asteroids)
    ensures var s := GroupCollide(lasers, asteroids);
      && AllLasers(s.restA) && AllAsteroids(s.restB) && Blastable(s.hits)
      && (forall l, a :: l in lasers && a in s.restB ==> !Hits(l, a))
  {
    var s := GroupCollide(lasers, asteroids);
    SweepRestsFromGroups(lasers, asteroids);
    ClaimsAreHits(lasers, asteroids);
    SweepLeavesNoOverlap(lasers, asteroids);
    forall c | c in s.hits
      ensures c.taken != [] && c.taken[0].w >= 0 && c.taken[0].h >= 0
    {
      assert c.taken[0] in c.taken;
    }
  }

  /** Explosions made at a positive time from a positive number of frames are
      live effects. */
  lemma BlastsLive(hits: seq<Claim>, frames: int, now: int)
    requires Blastable(hits) && frames > 0 && now > 0
    ensures AllEffects(Blasts(hits, frames, now))
  {
    var r := Blasts(hits, frames, now);
    forall b | b in r
      ensures EffectLive(b)
    {
      var k :| 0 <= k < |r| && r[k] == b;
    }
  }

  // ---------------------------------------------------------------------
  // Animation and update
  // ---------------------------------------------------------------------

  predicate Clocked(group: seq<Body>) {
    forall b :: b in group ==> ClockValid(b.clock)
  }

  /** Every sprite of a group animated at time t, its rect untouched. */
  function Animated(group: seq<Body>, t: int): (r: seq<Body>)
    requires Clocked(group)
  {
    assert forall k :: 0 <= k < |group| ==> group[k] in group;
    seq(|group|, k requires 0 <= k < |group| => group[k].(clock := Animation(group[k].clock, t)))
  }

  /** Animating keeps each kind what it was: only the clock changes and it
      stays valid. */
  lemma AnimationKeepsKinds(group: seq<Body>, t: int)
    requires Clocked(group)
    ensures |Animated(group, t)| == |group| && Clocked(Animated(group, t))
    ensures AllLasers(group) ==> AllLasers(Animated(group, t))
    ensures AllAsteroids(group) ==> AllAsteroids(Animated(group, t))
    ensures AllPowerUps(group) ==> AllPowerUps(Animated(group, t))
    ensures AllEffects(group) ==> AllEffects(Animated(group, t))
    ensures AllSpaces(group) ==> AllSpaces(Animated(group, t))
  {
    var r := Animated(group, t);
    forall b | b in r
      ensures exists k :: 0 <= k < |group| && b == group[k].(clock := Animation(group[k].clock, t))
    {
      var k :| 0 <= k < |r| && r[k] == b;
    }
    forall b | b in r
      ensures exists g :: g in group && b == g.(clock := Animation(g.clock, t))
    {
      var k :| 0 <= k < |group| && b == group[k].(clock := Animation(group[k].clock, t));
      assert group[k] in group;
    }
  }

  /** A rule applied to every sprite of a group, in order. */
  function Each(group: seq<Body>, rule: Body -> Body): (r: seq<Body>) {
    seq(|group|, k requires 0 <= k < |group| => rule(group[k]))
  }

  /** A rule that takes every sprite of kind P to one of kind Q takes a group
      of P sprites to a group of Q sprites. */
  lemma EachKeeps(group: seq<Body>, rule: Body -> Body, P: Body -> bool, Q: Body -> bool)
    requires forall b :: P(b) ==> Q(rule(b))
    requires forall b :: b in group ==> P(b)
    ensures |Each(group, rule)| == |group|
    ensures forall b :: b in Each(group, rule) ==> Q(b)
  {
    var r := Each(group, rule);
    forall b | b in r
      ensures Q(b)
    {
      var k :| 0 <= k < |r| && r[k] == b;
      assert group[k] in group;
    }
  }

  /** Asteroid.update for one record, drawing from draw n: the asteroid and
      the number of the next draw (two draws when it respawns). */
  function AsteroidStep(b: Body, pick: (int, int, nat) -> int, n: nat): (Body, nat) {
    if b.x > 0 then (AsteroidUpdate(b, 0, 0), n)
    else (AsteroidUpdate(b, pick(600, 1000, n), pick(20, 360, n + 1)), n + 2)
  }

  /** asteroid_group.update(): every asteroid in group order, the respawns
      drawing in that order. */
  function AsteroidsStep(group: seq<Body>, pick: (int, int, nat) -> int, n: nat): (r: (seq<Body>, nat))
    ensures |r.0| == |group| && n <= r.1 <= n + 2 * |group|
    ensures forall k :: 0 <= k < |group| && group[k].x > 0 ==> r.0[k] == group[k].(x := group[k].x - group[k].speed)
    ensures (forall k :: 0 <= k < |group| ==> group[k].x > 0) ==> r.1 == n
    decreases |group|
  {
    if group == [] then ([], n)
    else
      var (init, m) := AsteroidsStep(group[..|group| - 1], pick, n);
      var (last, m') := AsteroidStep(group[|group| - 1], pick, m);
      (init + [last], m')
  }

  /** Updating keeps every asteroid live and makes two draws per respawn. */
  lemma {:induction false} AsteroidsStepKeeps(group: seq<Body>, pick: (int, int, nat) -> int, n: nat)
    requires UniformRange(pick) && AllAsteroids(group)
    ensures var (r, m) := AsteroidsStep(group, pick, n);
      |r| == |group| && AllAsteroids(r) && n <= m <= n + 2 * |group|
    decreases |group|
  {
    if group != [] {
      var init := group[..|group| - 1];
      var b := group[|group| - 1];
      assert forall x :: x in init ==> x in group;
      AsteroidsStepKeeps(init, pick, n);
      var (r0, m) := AsteroidsStep(init, pick, n);
      var (last, m') := AsteroidStep(b, pick, m);
      assert b in group;
      assert Within(pick, 600, 1000, m) && Within(pick, 20, 360, m + 1);
      assert AsteroidLive(last);
      var r := r0 + [last];
      forall x | x in r
        ensures AsteroidLive(x)
      {
        if x != last {
          assert x in r0;
        }
      }
    }
  }

  // ---------------------------------------------------------------------
  // Clean-up
  // ---------------------------------------------------------------------

  /** clean_groups keeps a laser unless it is right of x = WIDTH. */
  predicate LaserKept(b: Body) { !(b.x > WIDTH) }

  /** clean_groups keeps a power-up unless it is left of x = 0. */
  predicate PowerUpKept(b: Body) { !(b.x < 0) }

  /** clean_groups keeps an effect while its life is not zero. */
  predicate EffectKept(b: Body) { b.life != 0 }

  /** A laser after Laser.update: possibly past the edge, still on its grid. */
  predicate LaserMoved(b: Body) {
    && b.w == LASER_SPRITE.w && b.h == LASER_SPRITE.h && b.speed == LASER_SPEED
    && b.x < WIDTH + LASER_SPEED && b.x % PLAYER_SPEED == 3 && ClockValid(b.clock)
  }

  /** A power-up after PowerUp.update: possibly a step past the left edge. */
  predicate PowerUpMoved(b: Body) {
    && b.w == POWER_UP_SPRITE.w && b.h == POWER_UP_SPRITE.h && b.speed == POWER_UP_SPEED
    && -POWER_UP_SPEED <= b.x <= 2000 && ClockValid(b.clock)
  }

  /** An effect after its update: its life may have run out. */
  predicate EffectAged(b: Body) {
    b.life >= 0 && b.w >= 0 && b.h >= 0 && ClockValid(b.clock)
  }

  /** The lasers left by the clean-up are flying again: the ones past the
      edge are gone and none can be at the edge itself. */
  lemma CleanLasers(moved: seq<Body>)
    requires forall b :: b in moved ==> LaserMoved(b)
    ensures AllLasers(Filter(moved, LaserKept))
  {
    FilterMembers(moved, LaserKept);
  }

  lemma CleanPowerUps(moved: seq<Body>)
    requires forall b :: b in moved ==> PowerUpMoved(b)
    ensures AllPowerUps(Filter(moved, PowerUpKept))
  {
    FilterMembers(moved, PowerUpKept);
  }

  lemma CleanEffects(aged: seq<Body>)
    requires forall b :: b in aged ==> EffectAged(b)
    ensures AllEffects(Filter(aged, EffectKept))
  {
    FilterMembers(aged, EffectKept);
  }

  /** The five sprite groups of the game loop. */
  datatype Groups = Groups(lasers: seq<Body>, asteroids: seq<Body>, powerups: seq<Body>, effects: seq<Body>, spaces: seq<Body>)

  predicate GroupsOk(g: Groups) {
    AllLasers(g.lasers) && AllAsteroids(g.asteroids) && AllPowerUps(g.powerups) && AllEffects(g.effects) && AllSpaces(g.spaces)
  }

  /** The playing part of a frame on the groups: animate_groups at `now`,
      update_groups drawing from draw n, then clean_groups; with the number
      of the next draw. */
  function Advanced(g: Groups, now: int, pick: (int, int, nat) -> int, n: nat): (r: (Groups, nat))
    requires GroupsOk(g)
    ensures |r.0.asteroids| == |g.asteroids| && |r.0.spaces| == |g.spaces|
    ensures |r.0.lasers| <= |g.lasers| && |r.0.powerups| <= |g.powerups| && |r.0.effects| <= |g.effects|
    ensures n <= r.1 <= n + 2 * |g.asteroids|
  {
    var (asteroids, m) := AsteroidsStep(Animated(g.asteroids, now), pick, n);
    (Groups(
      Filter(Each(Animated(g.lasers, now), LaserUpdate), LaserKept),
      asteroids,
      Filter(Each(Animated(g.powerups, now), PowerUpUpdate), PowerUpKept),
      Filter(Each(Animated(g.effects, now), EffectUpdate), EffectKept),
      Each(Animated(g.spaces, now), SpaceUpdate)), m)
  }

  lemma LasersThroughFrame(lasers: seq<Body>, now: int)
    requires AllLasers(lasers)
    ensures AllLasers(Filter(Each(Animated(lasers, now), LaserUpdate), LaserKept))
  {
    AnimationKeepsKinds(lasers, now);
    EachKeeps(Animated(lasers, now), LaserUpdate, LaserFlying, LaserMoved);
    CleanLasers(Each(Animated(lasers, now), LaserUpdate));
  }

  lemma PowerUpsThroughFrame(powerups: seq<Body>, now: int)
    requires AllPowerUps(powerups)
    ensures AllPowerUps(Filter(Each(Animated(powerups, now), PowerUpUpdate), PowerUpKept))
  {
    AnimationKeepsKinds(powerups, now);
    EachKeeps(Animated(powerups, now), PowerUpUpdate, PowerUpLive, PowerUpMoved);
    CleanPowerUps(Each(Animated(powerups, now), PowerUpUpdate));
  }

  lemma EffectsThroughFrame(effects: seq<Body>, now: int)
    requires AllEffects(effects)
    ensures AllEffects(Filter(Each(Animated(effects, now), EffectUpdate), EffectKept))
  {
    AnimationKeepsKinds(effects, now);
    EachKeeps(Animated(effects, now), EffectUpdate, EffectLive, EffectAged);
    CleanEffects(Each(Animated(effects, now), EffectUpdate));
  }

  lemma SpacesThroughFrame(spaces: seq<Body>, now: int)
    requires AllSpaces(spaces)
    ensures AllSpaces(Each(Animated(spaces, now), SpaceUpdate))
  {
    AnimationKeepsKinds(spaces, now);
    EachKeeps(Animated(spaces, now), SpaceUpdate, SpaceTile, SpaceTile);
  }

  lemma AsteroidsThroughFrame(asteroids: seq<Body>, now: int, pick: (int, int, nat) -> int, n: nat)
    requires UniformRange(pick) && AllAsteroids(asteroids)
    ensures AllAsteroids(AsteroidsStep(Animated(asteroids, now), pick, n).0)
  {
    AnimationKeepsKinds(asteroids, now);
    AsteroidsStepKeeps(Animated(asteroids, now), pick, n);
  }

  /** Every group keeps its kind through a whole frame. */
  lemma AdvanceKeepsGroups(g: Groups, now: int, pick: (int, int, nat) -> int, n: nat)
    requires UniformRange(pick) && GroupsOk(g)
    ensures GroupsOk(Advanced(g, now, pick, n).0)
  {
    LasersThroughFrame(g.lasers, now);
    AsteroidsThroughFrame(g.asteroids, now, pick, n);
    PowerUpsThroughFrame(g.powerups, now);
    EffectsThroughFrame(g.effects, now);
    SpacesThroughFrame(g.spaces, now);
  }
}
