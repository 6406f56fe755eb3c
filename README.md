# killer-asteroids: a Dafny model of the game's frame step

killer-asteroids is a side-scrolling pygame shooter. The ship flies on the left
of the screen and fires lasers at the asteroids coming in from the right. It
collects power-ups for extra lives and moves up a level whenever the asteroid
group is empty. This project models the integer simulation under the graphics:

- the game objects and their counters (`game/object.py`): score, lives, the
  animation clock, each sprite kind's `update`, and the ship's steering;
- the game loop of `killerasteroids/display.py`: one frame of `main` with its
  events, the four collision checks in their fixed order, and the animate,
  update and clean pass while the game is on. The same file supplies the pause
  menu's selection and the high-score table's line layout;
- wave generation in `killerasteroids/level.py`;
- the four-option selection ring of the main menu (`killerasteroids/menu.py`);
- the scrolling banner and the menu option sprites (`game/text.py`).

The form follows the source. Objects whose methods change their fields are
classes with `modifies` clauses: `AnimatedObject`, `Player`, `Score`, `Life`,
the six sprite kinds, `LevelDesign`, `MainMenu`, `PauseMenu`, `BannerText`,
`MenuOptionText` and `GameLoop`. Each method is specified by a pure function
of the state it changes. A sprite group of the game loop is a sequence of
sprite records (`GameObject.Body`: rect, speed, life, animation clock), kept
in the order pygame keeps them. The rules on those records live in
`GameRules` and `Collide`, with the lemmas that tie them together. The main
invariant is `Display.GameLoop.Valid`, which every frame keeps:

- the ship stays in the playfield on its 5-pixel grid;
- the score is never negative;
- a running game has a life left;
- every laser is still on screen;
- every asteroid is of the right size and speed;
- every effect has life left.

Modules, one per file:

- `Settings`: constants of `game/settings.py`.
- `Input`: keys and events.
- `Util`: filtering.
- `Rects`: `Rect.colliderect` and `Rect.center`.
- `Randomness`: the injected random source.
- `GameObject`: `game/object.py`.
- `Text`: `game/text.py`.
- `Level`: `killerasteroids/level.py`.
- `Menu`: `killerasteroids/menu.py`.
- `Collide`: the `groupcollide` sweep.
- `GameRules`: the frame rules on values.
- `FrameStep`: one frame of `GameLoop.main`, and a run of frames, as functions
  on the whole game state.
- `Display`: `GameLoop`.
- `Pause`: `PauseMenu`.
- `Highscore`: `_prefix` and `get_highscore_list`.

Assumptions stated in the model:

- **Overlap** (`Rects.Colliderect`) is the intersection of half-open
  axis-aligned rectangles of positive size.
- **`pygame.sprite.groupcollide(A, B, True, dokillb)`** is a sweep
  (`Collide.GroupCollide`). It takes each sprite of A in order. That sprite
  claims every sprite still in B that it overlaps, B drops them, and A drops
  the sprite if it claimed any. The collision dictionary lists the claiming
  sprites in that order.
- **Randomness**: `random.randint` is a function `pick(lo, hi, n)` giving the
  n-th draw. Its only known property is `lo <= pick(lo, hi, n) <= hi`. A draw
  counter says which draw each call uses, so the order of the draws is part
  of every contract.
- **Time**: `pygame.time.get_ticks()` is the frame's time `now`, one value for
  the whole frame.
- **Sprite sheets**: the frame counts of the sheets, which the source slices
  from image files, are parameters (`GameRules.Sheets`).

Where the code does something surprising, the model follows the code:

- Explosions and power-up glows are built with the clock's ticks as their fps
  (`pygame.time.get_ticks()` is passed in the fps position). A frame of the
  model therefore needs `now > 0`.
- A frame in which the last life is lost still runs the power-up pick-up and
  the level check. Only the animate, update and clean pass is skipped.
- A laser starts at an x that is 3 more than a multiple of 5 and moves by 30.
  So it never stops at exactly `x == WIDTH`, where `Laser.update` would stop
  moving it and `clean_groups` would keep it. The model proves this rather
  than assuming it.
- In `MainMenu.main` the key test ends in `or locals.K_RETURN`, a non-zero
  constant, so it is always true, so every key press reaches `update_selected_option`.
  `Menu.MainMenu.HandleEvent` follows that.

## Model

| member | source | states |
|---|---|---|
| GameObject.DueIsDelayTest | game/object.py:23-33 | the integer test `(t - last) * fps > 1500` holds exactly when `t - last > 1500 / fps` over the rationals, for any positive fps |
| GameObject.NextFrame | game/object.py:34-36 | the next frame index is one more, modulo the number of frames, and stays in `[0, frames)` |
| GameObject.Animation | game/object.py:27-38 | once the delay has passed, the frame advances by exactly one modulo the frame count and the last update becomes `t`; otherwise the clock is unchanged; the clock stays valid |
| GameObject.AnimateOncePerInstant | game/object.py:27-38 | animating twice at the same time is the same as animating once |
| GameObject.AnimatedObject.constructor | game/object.py:12-25 | a new animated object is at (0, 0) with the sheet's size and a clock at frame 0, last update 0 |
| GameObject.AnimatedObject.Animate | game/object.py:27-38 | the clock moves as `Animation` says and the position does not change |
| GameObject.LaserUpdate | game/object.py:153-156 | a laser stays put exactly when it is at or past x = WIDTH (or has no speed); otherwise it moves right by its speed; nothing but x changes |
| GameObject.SpaceUpdate | game/object.py:176-181 | a tile at or left of -WIDTH jumps to x = WIDTH, any other tile scrolls left by its speed; only x changes, and a tile within [-WIDTH, WIDTH] stays within it |
| GameObject.PowerUpUpdate | game/object.py:259-262 | a power-up right of x = -10 moves left by its speed, otherwise it stays; only x changes |
| GameObject.EffectUpdate | game/object.py:198-202 | an explosion or glow loses exactly one unit of life and nothing else changes |
| GameObject.AsteroidUpdate | game/object.py:238-243 | an asteroid right of x = 0 moves left by its speed; at or left of 0 it is put at the respawn point |
| GameObject.AsteroidComesBack | game/object.py:238-249 | with a speed of 3 to 6, one update either moves the asteroid left by at most 6 at the same height, or brings it back within x ∈ [600, 1000], y ∈ [20, 360] |
| GameObject.Steer | game/object.py:91-101 | UP and DOWN set the vertical intent to UP and DOWN and leave the horizontal one alone, LEFT and RIGHT set the horizontal intent to LEFT and RIGHT and leave the vertical one alone, and any other key changes nothing |
| GameObject.Release | game/object.py:103-109 | releasing UP or DOWN sets the vertical intent to still, whichever was pressed, and leaves the horizontal one; LEFT and RIGHT do the same for horizontal; other keys change nothing |
| GameObject.SteerThenRelease | game/object.py:91-109 | pressing an arrow and then releasing a vertical one stops the vertical motion and keeps the horizontal intent the press left |
| GameObject.VerticalStep | game/object.py:75-81 | an UP intent moves y up by 5 unless y is at or above LIMIT_UP, a DOWN intent moves it down by 5 unless y is at or below LIMIT_DOWN, and without a vertical intent y stays; so y changes by at most 5 |
| GameObject.HorizontalStep | game/object.py:83-89 | a LEFT intent moves x left by 5 unless x is at or left of LIMIT_LEFT, a RIGHT intent moves it right by 5 unless x is at or right of LIMIT_RIGHT, and without a horizontal intent x stays; so x changes by at most 5 |
| GameObject.StepKeepsMargin | game/object.py:72-89 | a position strictly within 5 of the limits stays so after a step |
| GameObject.StepKeepsPlayfield | game/object.py:65-89 | a position inside the limits exactly, on the 5-pixel grid of the start (0, 200), stays so after a step |
| GameObject.ScoreAfter | game/object.py:280-290 | a non-negative score stays non-negative; the score only drops by 1 on "fire" or by 50 on "damaged" (leaving it positive), and only rises by 100 on "kill" or by 1000 on "level up" |
| GameObject.ScoreEvents | game/object.py:280-290 | "fire" takes 1 only when the score is above 0, "damaged" takes 50 only when it is above 50, "kill" adds 100, "level up" adds 1000, and any other event string leaves the score unchanged |
| GameObject.ScoreStaysNonNegative | tests/test_gameobject.py:27-34 | no sequence of score events makes a non-negative score negative |
| GameObject.Score.constructor | game/object.py:267-269 | the score starts at 0 |
| GameObject.Score.GameScore | game/object.py:280-290 | the score becomes what `ScoreAfter` gives for the event |
| GameObject.Life.constructor | game/object.py:295-297 | the life counter starts at 3 |
| GameObject.Life.ExtraLife | game/object.py:320-323 | one more life, with no cap |
| GameObject.Life.LoseLife | game/object.py:325-328 | one life fewer, with no guard |
| GameObject.LoseThenGain | tests/test_gameobject.py:43-59 | losing a life and then gaining one returns the counter to its value |
| GameObject.Player.constructor | game/object.py:63-70 | the ship starts at (0, 200), not moving, with 3 lives and a score of 0 |
| GameObject.Player.Update | game/object.py:72-89 | the ship's x and y become `HorizontalStep` and `VerticalStep` of the old position and intent, which take the 5-pixel step on each axis unless the ship is at that limit; its clock is untouched |
| GameObject.Player.Move | game/object.py:91-101 | the intent becomes `Steer` of the old intent and the key: an arrow key sets its own axis to its direction, any other key changes nothing |
| GameObject.Player.StopMoving | game/object.py:103-109 | the intent changes as `Release` says for the key |
| GameObject.Player.UpdateScore | game/object.py:111-119 | the ship's score takes the event as `Score.game_score` does |
| GameObject.Player.GetExtraLife | game/object.py:125-127 | the ship gains one life |
| GameObject.Player.LoseLife | game/object.py:129-131 | the ship loses one life |
| GameObject.Laser.constructor | game/object.py:146-151 | a new laser is centred on the given point and then moved 5 pixels down, with speed 30 and its sheet's clock |
| GameObject.Laser.Update | game/object.py:153-156 | the laser's record moves as `LaserUpdate` says |
| GameObject.Space.constructor | game/object.py:171-174 | a new tile sits at the given position with speed 1 |
| GameObject.Space.Update | game/object.py:176-181 | the tile's record becomes `SpaceUpdate` of the old one: it scrolls left by its speed and jumps back to x = WIDTH once at or left of -WIDTH |
| GameObject.Explosion.constructor | game/object.py:192-196 | a new explosion is centred on the given point with 15 units of life |
| GameObject.Explosion.Update | game/object.py:198-202 | the explosion ages as `EffectUpdate` says |
| GameObject.PowerUpEffect.constructor | game/object.py:217-221 | a new glow is centred on the given point with 8 units of life |
| GameObject.PowerUpEffect.Update | game/object.py:223-224 | the glow ages as `EffectUpdate` says |
| GameObject.Asteroid.constructor | game/object.py:233-236 | a new asteroid sits at the given position with the given speed |
| GameObject.Asteroid.Update | game/object.py:238-243 | right of x = 0 the asteroid moves left by its speed and draws nothing; otherwise it takes the next two draws as its new x and y, which lie in [600, 1000] × [20, 360] |
| GameObject.Asteroid.Respawn | game/object.py:245-249 | the respawn point is the next draw from [600, 1000] and the one after it from [20, 360], and exactly two draws are used |
| GameObject.PowerUp.constructor | game/object.py:254-257 | a new power-up sits at the given position with speed 3 |
| GameObject.PowerUp.Update | game/object.py:259-262 | the power-up's record moves as `PowerUpUpdate` says |
| Randomness.Random.constructor | killerasteroids/level.py:41-45 | a new random source has made no draws |
| Randomness.Random.RandInt | killerasteroids/level.py:41-45 | `randint(lo, hi)` gives a value in [lo, hi], namely the next draw, and counts it |
| Rects.ColliderectSharesPixel | killerasteroids/display.py:157 | two rects collide exactly when some pixel lies in both |
| Rects.Colliderect | killerasteroids/display.py:157 | when two rects collide, the top-left corner of their overlap is a pixel of both; when they do not, no pixel lies in both |
| Rects.Center | killerasteroids/display.py:232 | the centre lies half the width and half the height from the corner, rounded down, and inside any rect of positive size |
| Rects.CenteredAt | game/object.py:192-196 | a rect of the given size placed by its centre has that size and that centre |
| Text.BannerStep | game/text.py:41-47 | the banner moves right by 5 exactly while x < WIDTH + 300, otherwise it wraps to -200, and it stays within [-200, WIDTH + 304] |
| Text.BannerFirstStep | tests/test_text.py:13-18 | one update from x = 0 gives x = 5 |
| Text.BannerText.constructor | game/text.py:34-39 | a new banner is at the given position with its text |
| Text.BannerText.Update | game/text.py:41-47 | x moves as `BannerStep` says and y does not change |
| Text.OptionColor | game/text.py:57-62 | the colour is ACTIVE_OPTION exactly when the option is selected, and TEXT_COLOR exactly when it is not |
| Text.MenuOptionText.constructor | game/text.py:53-55 | the option starts with the given text and selection state |
| Text.MenuOptionText.Update | game/text.py:57-62 | the colour becomes `OptionColor` of the selection state, which does not change |
| Text.MenuOptionText.ChangeState | game/text.py:68-73 | the selection flag flips, returning nothing |
| Text.ChangeStateTwice | tests/test_text.py:37-41 | flipping an option twice leaves it as it was |
| Text.Flags | game/text.py:64-66 | the selection flags read from the options, one per option in list order |
| Text.LastSelected | killerasteroids/menu.py:43-46 | the index found is that of the last selected option, or -1 when none is selected |
| Text.OnlySelectedIsLast | killerasteroids/menu.py:43-46 | when exactly one option is selected, the last selected one is that option |
| Text.CurrentText | killerasteroids/menu.py:43-46 | the loop that finds the current option yields the text of the last selected option in list order, or nothing when none is selected |
| Util.FilterMembers | killerasteroids/display.py:86-99 | removing the failing sprites keeps exactly the sprites that pass the test |
| Util.FilterPartition | killerasteroids/display.py:86-99 | every sprite goes once either to the kept part or to the removed part |
| Collide.SplitCounts | killerasteroids/display.py:157 | one sprite's pass splits the other group into overlapping and non-overlapping sprites, losing none and counting none twice |
| Collide.SplitIn | killerasteroids/display.py:157 | a sprite is in the overlapping (or non-overlapping) part exactly when it is in the group and does (or does not) overlap |
| Collide.SplitMembers | killerasteroids/display.py:157 | both split facts together |
| Collide.SplitNone | killerasteroids/display.py:157 | a sprite that overlaps nothing takes nothing and leaves the group as it was |
| Collide.SweepPartitionsA | killerasteroids/display.py:157 | each sprite of the first group is either a key of the collision dictionary or left in its group |
| Collide.SweepPartitionsB | killerasteroids/display.py:157 | each sprite of the second group was taken by exactly one key or is left over, so no asteroid is claimed twice |
| Collide.SweepPartitions | killerasteroids/display.py:157 | both partitions of the sweep together |
| Collide.SweepRestsFromGroups | killerasteroids/display.py:157 | what the sweep leaves of each group was in that group |
| Collide.SweepLeavesNoOverlap | killerasteroids/display.py:157 | no asteroid left after the sweep overlaps any laser that was in the group before it |
| Collide.ClaimsAreHits | killerasteroids/display.py:157-166 | every key of the dictionary came from the first group and took at least one sprite, each from the second group and overlapping it |
| Collide.NoOverlapNoChange | killerasteroids/display.py:157-159 | when nothing overlaps, the dictionary is empty and both groups are unchanged |
| Collide.ContactMembers | killerasteroids/display.py:111-148 | the keys of the dictionary of `groupcollide(group, player_group, True, False)` are exactly the sprites of the group that overlap the ship, and the sprites left are exactly the others |
| Collide.StrikeAgainstPlayer | killerasteroids/display.py:111-148 | the ship is hit exactly when some sprite of the group overlaps it; the sprites kept are exactly the ones that do not; the two parts together make up the group |
| GameRules.OnEventEffect | killerasteroids/display.py:204-251 | only an arrow event changes the steering, a press steering and a release stopping that axis; only a press of space changes the score and the lasers, by one "fire" and one laser from the ship's centre; P and every other key change nothing |
| GameRules.EventsFire | killerasteroids/display.py:195-234 | the events of a frame add one laser per press of space, all from the ship's centre and after the lasers already flying; they charge one "fire" per press, in order; the quit flag is set exactly when a quitting event is among them |
| GameRules.ShipLaser | killerasteroids/display.py:226-234 | a laser fired from the ship starts at (x + 38, y + 15) and is a flying laser |
| GameRules.EventsKeepLasers | killerasteroids/display.py:195-234 | the events of a frame keep every laser on screen |
| GameRules.Blasts | killerasteroids/display.py:163-170 | one explosion per key of the dictionary, in order, centred on the first asteroid that key took |
| GameRules.SweepKeeps | killerasteroids/display.py:150-170 | the lasers and asteroids left after the sweep are of their kinds, none of the asteroids left overlaps any laser, and every laser that hit took an asteroid |
| GameRules.BlastsLive | killerasteroids/display.py:163-170 | the explosions of a frame are effects with life left |
| GameRules.AnimationKeepsKinds | killerasteroids/display.py:51-64 | animating a group keeps its length and each sprite's kind |
| GameRules.EachKeeps | killerasteroids/display.py:66-74 | an update rule that keeps a kind keeps a group of that kind |
| GameRules.AsteroidsStep | killerasteroids/display.py:66-74 | updating the asteroid group keeps its length; each asteroid right of x = 0 just moves left by its speed; the respawns use between 0 and two draws per asteroid, and none when no asteroid is at or left of 0 |
| GameRules.AsteroidsStepKeeps | game/object.py:238-249 | updating the asteroid group keeps every asteroid live and uses at most two draws per asteroid |
| GameRules.CleanLasers | killerasteroids/display.py:89-91 | after the clean-up every laser is on screen again |
| GameRules.CleanPowerUps | killerasteroids/display.py:93-95 | after the clean-up no power-up is left of the screen |
| GameRules.CleanEffects | killerasteroids/display.py:97-99 | after the clean-up every effect has life left |
| GameRules.LasersThroughFrame | killerasteroids/display.py:259-269 | lasers animated, moved and cleaned are still flying lasers |
| GameRules.PowerUpsThroughFrame | killerasteroids/display.py:259-269 | power-ups animated, moved and cleaned are still live power-ups |
| GameRules.EffectsThroughFrame | killerasteroids/display.py:259-269 | after a full playing frame every remaining effect has life at least 1 |
| GameRules.SpacesThroughFrame | killerasteroids/display.py:259-269 | the background tiles stay within one screen width |
| GameRules.AsteroidsThroughFrame | killerasteroids/display.py:259-269 | asteroids animated and moved are still live asteroids |
| GameRules.Advanced | killerasteroids/display.py:259-269 | animate, update and clean keep the number of asteroids and background tiles, never add lasers, power-ups or effects, and use at most two draws per asteroid |
| GameRules.AdvanceKeepsGroups | killerasteroids/display.py:259-269 | every group keeps its kind through animate, update and clean |
| Level.EnemiesAreDraws | killerasteroids/level.py:36-47 | the k-th asteroid of a wave is built from draws 3k, 3k+1 and 3k+2 after the wave's first draw |
| Level.WaveShape | killerasteroids/level.py:36-67 | a wave of level L has exactly 3L asteroids and at most one power-up; each starts at frame 0 with x ∈ [600, 2000] and y ∈ [LIMIT_UP, LIMIT_DOWN]; asteroids move at a speed of 3 to 6, the power-up at 3 |
| Level.LevelDesign.constructor | killerasteroids/level.py:11-14 | the level starts at 1, with the wave for level 1 generated from the next draws |
| Level.LevelDesign.NextLevel | killerasteroids/level.py:29-34 | the level goes up by exactly 1, and the stored wave is replaced by a new one for that level, which is returned |
| Level.LevelDesign.GetEnemies | killerasteroids/level.py:36-47 | the loop builds exactly the asteroids `Enemies` describes, 3 × level of them, using three draws each |
| Level.LevelDesign.GetPowerups | killerasteroids/level.py:49-59 | the power-ups are those `PowerUps` describes from the next draws |
| Level.LevelDesign.GenerateLevel | killerasteroids/level.py:61-67 | the wave is the enemies followed by the power-ups, drawn in that order |
| Menu.RingInverse | killerasteroids/menu.py:48-76 | moving up undoes moving down and the reverse; four moves down come back to the start |
| Menu.NameIdentifies | killerasteroids/menu.py:78-87 | each option's name identifies its place in the menu |
| Menu.MainMenu.FirstArrangement | killerasteroids/menu.py:28-33 | four distinct options named in menu order, with only the first selected, form a menu whose selection is START GAME |
| Menu.MainMenu.constructor | killerasteroids/menu.py:14-33 | a new menu has exactly one option selected, START GAME |
| Menu.MainMenu.SwapMovesSelection | killerasteroids/menu.py:48-76 | flipping the selected option and one other moves the single selection onto the other |
| Menu.MainMenu.Swap | killerasteroids/menu.py:48-76 | toggling two options moves the selection and keeps exactly one option selected; no option's colour changes |
| Menu.MainMenu.MoveDown | killerasteroids/menu.py:48-61 | DOWN moves the selection 0→1→2→3→0; no option's colour changes |
| Menu.MainMenu.MoveUp | killerasteroids/menu.py:63-76 | UP moves the selection 0→3→2→1→0; no option's colour changes |
| Menu.MainMenu.UpdateSelectedOption | killerasteroids/menu.py:41-87 | DOWN and UP move the selection around the ring and keep exactly one option selected; RETURN leaves the selection alone and returns the action of the current option; any other key changes nothing; no option's colour changes |
| Menu.MainMenu.HandleEvent | killerasteroids/menu.py:89-107 | quitting events leave the menu; every key press reaches the option update, so RETURN dispatches and UP and DOWN move, and nothing else changes |
| Menu.DownThenUp | killerasteroids/menu.py:48-76 | DOWN followed by UP restores the selection |
| Menu.FourDowns | killerasteroids/menu.py:48-61 | four DOWNs restore the selection |
| Pause.PauseMenu.constructor | killerasteroids/display.py:283-286 | a new pause menu has its RESUME option selected and only it |
| Pause.PauseMenu.ToggleBoth | killerasteroids/display.py:304-324 | flipping both options swaps the selection, keeps exactly one option selected and leaves both colours as they were |
| Pause.PauseMenu.UpdateSelectedOption | killerasteroids/display.py:296-330 | UP and DOWN both swap the selection between RESUME and QUIT; RETURN returns RESUME GAME when RESUME is selected and the exit (`sys.exit`) when QUIT is, without changing the selection; other keys change nothing; no option's colour changes |
| Highscore.NatToString | killerasteroids/display.py:497-502 | the decimal text of a number has at least one character |
| Highscore.NatToStringReadsBack | killerasteroids/display.py:497-502 | the decimal text of a number is all digits and reads back as that number |
| Highscore.Prefix | killerasteroids/display.py:497-502 | the place text has at least two characters, with a leading zero below 10 |
| Highscore.PrefixReadsBack | killerasteroids/display.py:497-502 | every place 0 to 99 is written as exactly two digits that read back as the place, with a leading zero exactly below 10 |
| Highscore.ScoreTextLayout | killerasteroids/display.py:479 | a row's line is its two-digit place, ". ", the score, a space and the player's name, and a non-negative score reads back off the line |
| Highscore.PlaceholderLayout | killerasteroids/display.py:490 | an empty place's line is its place followed by a dot; places 1 to 99 give three characters whose first two read back as the place |
| Highscore.GetHighscoreList | killerasteroids/display.py:472-495 | there is one line per row, padded with placeholders up to ten lines; lines are numbered from 01, stacked 15 pixels apart from y = 140 at a fixed x; row k's line carries its place, score and name |
| Display.GameLoop.constructor | killerasteroids/display.py:19-49 | a new game has the ship at (0, 200), two background tiles side by side, no lasers or effects, the first level's wave as its asteroids and power-ups, 3 lives and a score of 0 |
| Display.GameLoop.HandleEvents | killerasteroids/display.py:195-234 | the events steer the ship, fire lasers and charge points as `OnEvents` says, stopping at the first quitting event; the other groups and the game state do not change |
| Display.GameLoop.LaserHitsAsteroid | killerasteroids/display.py:150-173 | with no lasers nothing happens; otherwise the sweep removes every laser that hit and every asteroid it overlapped, adds one explosion per laser that hit, and charges a single "kill" when there was any hit |
| Display.GameLoop.AddBlasts | killerasteroids/display.py:163-170 | the loop over the dictionary appends exactly the explosions `Blasts` gives |
| Display.GameLoop.ResetGame | killerasteroids/display.py:101-109 | the game ends, handing over the final score, and the groups are untouched |
| Display.GameLoop.AsteroidHitsPlayer | killerasteroids/display.py:128-148 | every asteroid touching the ship is removed; on any hit the ship takes one "damaged", loses one life and one explosion is added at it; the game stops exactly when that hit leaves no life |
| Display.GameLoop.PlayerGetsPowerup | killerasteroids/display.py:111-126 | every power-up touching the ship is removed; on any hit one glow is added at the ship and exactly one life is gained, with no cap |
| Display.GameLoop.LevelUp | killerasteroids/display.py:178-182 | with no asteroid left, the score takes "level up", the level goes up by 1, the new wave's asteroids form the group and its power-ups join the ones kept, as `LevelCheck` says |
| Display.GameLoop.IsAsteroidsDestroyed | killerasteroids/display.py:175-182 | with asteroids left nothing changes; with none, the score takes "level up", the level goes up by 1, the new wave's asteroids form the group, and its power-ups join the ones kept |
| Display.GameLoop.AnimateGroups | killerasteroids/display.py:51-64 | every sprite of every group, and the ship, is animated at the frame's time and nothing moves |
| Display.GameLoop.AnimateGroup | killerasteroids/display.py:51-64 | the loop animates each sprite of a group, changing only its clock |
| Display.GameLoop.UpdateGroup | killerasteroids/display.py:66-74 | the loop applies the kind's update to each sprite of a group, in order |
| Display.GameLoop.StepAsteroids | killerasteroids/display.py:66-74 | the asteroids update in group order, each respawn taking the next two draws |
| Display.GameLoop.UpdateGroups | killerasteroids/display.py:66-74 | every group updates by its kind's rule and the ship steps as its intent says, within the limits |
| Display.GameLoop.Keep | killerasteroids/display.py:86-99 | the loop keeps exactly the sprites that pass the test, in order |
| Display.GameLoop.CleanGroups | killerasteroids/display.py:86-99 | lasers with x > WIDTH, power-ups with x < 0 and effects with no life are removed, and nothing else changes |
| Display.GameLoop.Advance | killerasteroids/display.py:259-269 | animate, update and clean together change the groups as `Advanced` says, keep the invariant, and move the ship one step |
| Display.GameLoop.Frame | killerasteroids/display.py:184-269 | one frame keeps the invariant, and its new state and quit flag are exactly `FrameOutcome` of the state before: so the checks run in their fixed order and the guarded pass runs only while the game is on; on a quit only the steering, the score and the lasers changed; lives and the level change by at most one |
| Display.GameLoop.Run | killerasteroids/display.py:184-269 | the final state, the quit flag and the number of frames run are exactly `RunFrom` of the state before over the whole schedule; frames run while the game is on and no quitting event comes; the level rises by at most one per frame run |
| FrameStep.Fired | killerasteroids/display.py:194-251 | the event loop changes only the steering, the score and the laser group, and keeps the state's invariant |
| FrameStep.LaserStrike | killerasteroids/display.py:150-173 | laser against asteroid changes only the lasers, the asteroids, the effects and the score, the score by at most one "kill"; the power-ups and the background stay |
| FrameStep.AsteroidStrike | killerasteroids/display.py:128-148 | asteroid against ship leaves the asteroids that do not touch the ship; on a touch one life fewer; the game ends, handing over the score, exactly when that touch takes the last life; only asteroids and effects change among the groups |
| FrameStep.PowerUpStrike | killerasteroids/display.py:111-126 | ship against power-up leaves the power-ups that do not touch the ship and adds one life on a touch; only the groups and the lives change |
| FrameStep.LevelCheck | killerasteroids/display.py:175-182 | the level rises, by exactly one, exactly when the asteroid group is empty; only the groups, the score, the level and the draw count change |
| FrameStep.Play | killerasteroids/display.py:259-269 | the guarded pass changes nothing once the game is over, and otherwise only the groups, the draw count and the ship's record |
| FrameStep.Checked | killerasteroids/display.py:253-257 | the four checks in their order keep the state's invariant |
| FrameStep.FrameOutcome | killerasteroids/display.py:184-269 | a frame keeps the state's invariant |
| FrameStep.FrameFacts | killerasteroids/display.py:184-269 | a quitting frame changes only steering, score and lasers; otherwise the level rises exactly when no asteroid is left after the laser sweep and the ship, the game ends exactly when an asteroid that survived the sweep touches the ship with one life left, lives change by one per kind of touch, and the ship steps only while the game goes on |
| FrameStep.FrameLevel | killerasteroids/display.py:184-269 | one frame raises the level by at most one and never lowers it |
| FrameStep.RunFrom | killerasteroids/display.py:186-269 | a run of frames keeps the invariant; the level rises by at most one per frame run and never falls; a run that ends with the game on and no quit ran every frame; after a game over nothing changes |

## Left out

- Rendering is not modelled: `draw_groups`, `screen.fill`, `dim_screen`, fonts, surfaces and `load_sliced_sprites`. They only draw, and the number of frames of a sheet is a parameter.
- Audio is not modelled: `SoundEffect`, `BackgroundMusic`, `sound_effect`, `gain_life_sfx`, `lose_life_sfx`. These are foreign calls with no effect on the state.
- `pygame.event.get` is replaced by the sequence of events a frame receives.
- `Clock.tick` is left out.
- `sys.exit` becomes the returned quit flag.
- The time is one `now` per frame: the source calls `pygame.time.get_ticks()` separately for each sprite.
- `GameDatabase.__init__`, `_check_dir`, `create_table`, `save_highscore` and `get_highscores` are SQLite I/O. The rows `get_highscores` returns are an input of `Highscore.GetHighscoreList`, and both calls to it in the source are taken to return the same rows.
- The screens RETURN opens from the main menu (the game, the high-score table, the help) and its `sys.exit` become the returned `Menu.Action` label.
- `HelpSection`, `HighscoreSection` and the `MainMenu.main` loop are blocking screen loops, whose selection logic is modelled above.
- `PauseMenu.main` is not modelled, and the model treats the P key as changing nothing (`GameRules.OnEventEffect`). In the source, P opens a blocking loop (killerasteroids/display.py:238-251, 343-369). Each frame of that loop animates every sprite of the six groups the game passes in, the ship and the background included, so their clocks advance. The loop returns on P or on RETURN over RESUME. It ends the program on QUIT, on ESCAPE and on RETURN over QUIT. Its key test also ends in `or locals.K_RETURN`, so every key press reaches `update_selected_option`. None of this, nor the `value == "RESTART GAME"` print, is captured.
- `GameOver.run` is not modelled. After the last life, the source shows it until RETURN or BACKSPACE (killerasteroids/display.py:565-608). Each of its frames animates and scrolls the game's own background tiles. `Display.GameLoop.ResetGame` hands over the final score and leaves the tiles as they were, so the model's background after a game over is not the source's.
- `random.randint` is the injected `pick` function, of which only its range is known.
- `_delay = 1500 / fps` is a float. The model uses the exact integer comparison `(t - last) * fps > 1500`, which `GameObject.DueIsDelayTest` shows equal to the comparison over the rationals; floating-point rounding is not modelled.
- `groupcollide`, `spritecollide` and `Sprite.kill` are pygame code. Their effect is the sweep assumption stated above.
- The HUD text of `Score`, `Life` and `LevelDesign` is not modelled: their `update` methods only render text, and `LevelDesign.update` is one such method.
- `Player.get_score`, `Player.lives_left` and `LevelDesign.get_level` are plain reads, modelled as functions without contracts.
- The groups hold records, not sprite objects, so sprite identity and aliasing between groups are not modelled.
- Display.GameLoop.Frame: requires `now > 0`, because explosions and glows take the clock's ticks as their fps; with ticks of 0 the source's `1500 / fps` would divide by zero.
- Display.GameLoop.Run: runs a given finite schedule of frames, each with its events and its time; the source loops until the game ends.
