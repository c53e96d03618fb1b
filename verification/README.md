# The Final Escape: a Dafny model of the game's rules

"The Final Escape" is a 2D platformer. A student runs through four campus levels
towards an exit. An exam AI, which learns from the student's movement, chases them.
This project models the deterministic core of the game as pure Dafny functions over
immutable records, and proves properties of it.

## Modules

| Module | File | What it models |
|---|---|---|
| `Config` | `config.dfy` | The game constants. |
| `Options` | `options.dfy` | Optional values. |
| `Geometry` | `geometry.dfy` | Integer rectangles. `Overlaps` is strict overlap on both axes, as `colliderect` decides it. `ContainsPoint` includes the left and top edges and excludes the right and bottom ones. `Trunc` converts a float to an int, rounding toward zero. |
| `Collision` | `collision.dfy` | Axis-separated collision passes. The player's x pass stops its velocity. The AI's x pass keeps it. The y pass snaps to the platform and records a landing. |
| `AIBrain` | `ai_brain.dfy` | The pursuit brain: a 60-sample history, a linear extrapolation, a confidence gate, a zone bonus and the per-tick decision. |
| `Enemy` | `enemy.dfy` | The exam AI's update: slowdown timers, the descent from the sky, steering, jumping, collisions and the level clamp. Also the patrolling guard. |
| `PlayerPhysics` | `player.dfy` | The student's update: steering, jumping, gravity, the fall clamp, truncating movement, collisions, energy and the coffee timer. |
| `SessionAnalysis` | `analyze_data.dfy` | The pure part of the session analysis: the error results, record normalisation, the zone histogram and the top zone. |
| `CameraView` | `camera.dfy` | The clamped follow camera. |
| `Ui` | `ui.dfy` | The AI panel's telemetry and threat bands, the text field and the button. |
| `TextWrap` | `text_wrap.dfy` | The panel's greedy word wrap, as written and as intended. |
| `Intro` | `intro.dfy` | The typewriter intro's frame-driven sequencer. |
| `Game` | `game.dfy` | The PLAYING tick: time limit, movement, logging, item collection, catch and exit. Also respawning, building levels, and the menu transitions between screens. |

### Modelling choices

- **Positions.** Rectangles use `int` coordinates and `nat` sizes. Velocities are `real`.
- **Float-to-int conversion.** Where the code assigns a float to a rectangle coordinate, the float is truncated toward zero.
  - The AI moves by `Trunc(x + vel)`.
  - The player moves by `x + Trunc(vel)`, because its code converts the velocity with `int()` first.
- **No square roots.**
  - Threat bands compare squared distances.
  - The brain keeps the population variance of the recent `vx` samples instead of the confidence value. `confidence > 0.6` is equivalent to `variance < 4`. `AIBrain.ConfidenceGate` proves this, and `AIBrain.IsConfidence` characterises the confidence value itself.
- **Inputs as parameters.** Keys, the mouse, the millisecond clock and the parsed session data are all parameters:
  - the key state is a `Keys` record;
  - input events are a sequence of `Input` values;
  - `now` is the clock reading;
  - `SessionAnalysis.AnalysisResult` is the stored session data.
- **Code over comments.** Where the code and its comments disagree, the model follows the code:
  - `slow_down(180)` lasts 90 AI updates, because the timer is decremented twice per update.
  - The AI has no fall-speed limit.
  - The player has no world clamp.
  - The AI's behaviour state is always CHASE.
  - Restarting from GAME_OVER keeps the session log. Only PLAY from HOME clears it.

## Model

| member | source | states |
|---|---|---|
| AIBrain.UpdateAnalysis | src/entities/ai_brain.py:15-17 | The analysis results are stored. The history and the confidence state are unchanged. |
| AIBrain.Observe | src/entities/ai_brain.py:19-28 | The history never grows beyond 60 samples, and the newest sample is last. Below 60 the sample is appended. At 60 exactly the oldest sample is dropped (FIFO). |
| AIBrain.ProcessPlayerInput | src/entities/ai_brain.py:19-28 | The recorded sample is the player's centre and velocity. Nothing else about the brain changes. |
| AIBrain.ObserveAllKeepsNewest | src/entities/ai_brain.py:19-28 | Any sequence of observations leaves exactly the last 60 samples of all those seen. |
| AIBrain.Predict | src/entities/ai_brain.py:30-55 | There is no prediction iff fewer than 5 samples are recorded. In that case the brain, including its stale confidence, is unchanged. Otherwise the prediction is the newest centre moved by the mean velocity of the last (at most 10) samples times `frames_ahead`, and the stored spread is the population variance of those samples' `vx`. |
| AIBrain.PredictWithinWindowVelocities | src/entities/ai_brain.py:42-49 | When every recent sample's `vx` lies in [lo, hi], the predicted x lies between the newest centre moved at speed lo and at speed hi for `frames_ahead` frames. |
| AIBrain.OnlyRecentSamplesMatter | src/entities/ai_brain.py:42-53 | Two histories whose last 10 samples agree give the same prediction and the same spread. |
| AIBrain.PredictSteadyVelocity | src/entities/ai_brain.py:42-49 | With a constant velocity in every sample, the prediction is the last centre moved by that velocity times `frames_ahead`. |
| AIBrain.PredictStationaryPlayer | src/entities/ai_brain.py:42-53 | For a player standing still, the prediction is the player's position and the brain is confident. |
| AIBrain.SteadyVelocityFullConfidence | src/entities/ai_brain.py:52-53 | Identical `vx` samples give zero variance, so the confidence is exactly 1 and passes the gate. |
| AIBrain.ConstantStatistics | src/entities/ai_brain.py:43-52 | The mean of identical values is that value and their population variance is 0. |
| AIBrain.ConfidenceGate | src/entities/ai_brain.py:52-53 | The confidence `max(0, 1 - std/5)` exceeds 0.6 exactly when the variance of the recent `vx` samples is below 4. |
| AIBrain.ConfidenceUnique | src/entities/ai_brain.py:52-53 | A variance determines at most one confidence value. |
| AIBrain.NoSpreadFullConfidence | src/entities/ai_brain.py:52-53 | Zero variance means confidence 1. |
| AIBrain.ConfidentIsGate | src/entities/ai_brain.py:71-73 | The model's `Confident` test is exactly the source's `prediction_confidence > 0.6`, including the initial confidence of 0. |
| AIBrain.ZoneBonus | src/entities/ai_brain.py:57-64 | The bonus is 0.2 iff a top zone is known and `x` is less than 500 from that zone's centre. Otherwise it is 0, in particular when there is no analysis. |
| AIBrain.ZoneBonusSymmetric | src/entities/ai_brain.py:57-64 | The bonus is symmetric about the favourite zone's centre. |
| AIBrain.DecideMovement | src/entities/ai_brain.py:66-96 | `dx` is the target's x minus the AI's centre. The AI jumps iff the target is more than 40 above it, or the box shifted 40 towards the target overlaps a platform. The bonus is taken at the AI's centre. |
| AIBrain.LowConfidenceFallsBackToLive | src/entities/ai_brain.py:71-78 | Without a confident prediction, the AI aims at the player's live centre; it does not blend the two. |
| AIBrain.ObstacleAheadForcesJump | src/entities/ai_brain.py:85-91 | A platform 40 ahead of the AI forces a jump. |
| SessionAnalysis.Analyze | src/analyze_data.py:22-60 | Analysis fails iff the data is falsy or is neither a list nor a dict, and each failure gives its own error. A single dict counts as one session. Zone statistics are present iff some record has positions. |
| SessionAnalysis.Zone | src/analyze_data.py:54 | A position's zone is the floor of `x / 320`, so negative `x` gives a negative zone. |
| SessionAnalysis.AllPositionsAppend | src/analyze_data.py:43-47 | The positions of records are concatenated in record order. Records without a position list are skipped. |
| SessionAnalysis.Tally | src/analyze_data.py:54-58 | The histogram is ordered by zone. Every count is at least 1, each zone's count is its number of occurrences, and the counts sum to the number of positions. |
| SessionAnalysis.FirstMaxIndex | src/analyze_data.py:57 | The chosen bin has the largest count, and every earlier bin has a smaller one. |
| SessionAnalysis.DistributionIsHistogram | src/analyze_data.py:54-58 | The zone distribution counts every position exactly once, and every position's zone appears in it. |
| SessionAnalysis.TopZoneIsSmallestMostVisited | src/analyze_data.py:55-57 | The top zone is a most-visited zone, and the smallest such zone on a tie. |
| Collision.PushOutX | src/entities/player.py:64-71 | On overlap, moving right snaps the right edge back to the platform's left edge, and moving left snaps the left edge to the platform's right edge. Either way the overlap ends. At rest nothing moves. |
| Collision.PushOutY | src/entities/player.py:73-82 | Falling snaps the bottom to the platform's top. Rising snaps the top to the platform's bottom. Either way the overlap ends. |
| Collision.StopX | src/entities/player.py:64-71 | The player's x pass never moves it forward and only ever sets `vel_x` to 0. At rest it changes nothing. |
| Collision.ResolveY | src/entities/player.py:73-82 | The y pass never moves the rectangle forward and only ever sets `vel_y` to 0. A landing happens only on a downward snap. At rest it changes nothing. |
| Collision.SlideX | src/entities/enemy.py:108-114 | The AI's x pass changes only x and never moves the AI forward. It touches no velocity, so the AI keeps its own. |
| Collision.NoOverlapNoChange | src/entities/player.py:64-82 | A rectangle touching no platform is left as it is by every pass. |
| Collision.SlideXAtRest | src/entities/enemy.py:108-114 | An AI at rest is not moved by the x pass. |
| Collision.VerticalResolutionIdempotent | src/entities/player.py:73-82 | Once a y pass has stopped the rectangle, a second pass changes nothing. |
| Collision.LandedOnPlatformTop | src/entities/player.py:59-82 | `on_ground` holds iff the player fell and was stopped, and then its bottom lies on some platform's top. |
| Collision.StopXStopsOnContact | src/entities/player.py:64-71 | The x pass ends with velocity 0 iff the rectangle overlaps some platform; otherwise the velocity is kept. |
| Enemy.NewExam | src/entities/enemy.py:11-40 | A new AI is at rest, unslowed, with an empty history and no analysis. |
| Enemy.SlowDown | src/entities/enemy.py:41-44 | The timer is set to the duration and the speed factor to 0.5. Nothing else changes. |
| Enemy.TickSlowdown | src/entities/enemy.py:48-51 | A running timer drops by one, and the factor returns to 1 when the timer reaches 0. |
| Enemy.UpdateSlowdown | src/entities/enemy.py:48-61 | Each update decrements the timer twice, never below zero, and restores the speed on the update that empties it. |
| Enemy.SlowdownLasts | src/entities/enemy.py:41-61 | A slowdown of `d` lasts while `2k < d` updates have run, so `slow_down(180)` ends after 90 updates. |
| Enemy.RunWithoutSlowdown | src/entities/enemy.py:48-61 | Once the timer has run out, the slowdown state never changes again. |
| Enemy.UpdateTicksSlowdown | src/entities/enemy.py:46-61 | Every update, whatever the AI's state, ticks the timer twice (never below zero) and restores normal speed on the tick that empties it. |
| Enemy.RunSlowdown | src/entities/enemy.py:46-61 | Over `k` updates the timer and factor follow their own two-tick recurrence, whatever the player does, the level holds or the AI's movement is. |
| Enemy.TimerAfterClosedForm | src/entities/enemy.py:46-61 | After `k` updates a running timer `d` reads `max(0, d - 2k)`; a timer that is not running is unchanged. |
| Enemy.FactorAfterClosedForm | src/entities/enemy.py:46-61 | After `k` updates with a running timer `d`, the factor is 1 once `2k >= d` and unchanged before. |
| Enemy.Steer | src/entities/enemy.py:81-91 | Outside the ±10 dead zone the AI runs at full speed towards the target and faces it. Inside the dead zone it stops and keeps its facing. |
| Enemy.SpeedRange | src/entities/enemy.py:81 | The speed `3.2·(1 + bonus)·slowdown` lies between 1.6 and 3.84. |
| Enemy.ClampToLevel | src/entities/enemy.py:129-131 | An AI no wider than the level ends up inside [0, 3200]. One already inside is untouched. |
| Enemy.Chase | src/entities/enemy.py:76-131 | The chase keeps the slowdown state, uses the brain's decision and ends inside the level. |
| Enemy.Update | src/entities/enemy.py:46-131 | Every update records the player's sample. While the AI is above the level, it only drops by 2. |
| Enemy.DescendReachesTop | src/entities/enemy.py:71-74 | From `y = -2n` the AI reaches the top edge after exactly n updates, with x and its velocities untouched. |
| Enemy.StaysInsideLevel | src/entities/enemy.py:129-131 | After a non-descending update, an AI no wider than the level is inside [0, 3200]. |
| Enemy.JumpOnlyWhenGrounded | src/entities/enemy.py:93-104 | An AI that is not standing on a platform does not jump. Its vertical speed only gains gravity or is stopped. |
| Enemy.NewGuard | src/entities/enemy.py:143-150 | A new guard starts at its spawn point heading right with a patrol range of 60. |
| Enemy.GuardUpdate | src/entities/enemy.py:152-155 | The guard moves 2 in its direction. The direction flips exactly when the guard is more than the patrol range from its spawn point. |
| Enemy.GuardStaysOnPatrol | src/entities/enemy.py:152-155 | The direction stays ±1 and the guard stays within range plus one step of its spawn point. |
| Enemy.NewGuardOnPatrol | src/entities/enemy.py:143-155 | A new guard satisfies the patrol invariant. |
| PlayerPhysics.NewPlayer | src/entities/player.py:8-25 | A new player is at rest in the air, with no score, full energy and no items. |
| PlayerPhysics.SpeedMult | src/entities/player.py:31 | The multiplier is 1.5 iff the coffee timer is running, and 1 otherwise. |
| PlayerPhysics.SteerX | src/entities/player.py:38-45 | Left accelerates leftwards down to the limit. Right, when left is not held, accelerates rightwards up to the limit. No key makes friction shrink the speed without changing its sign. |
| PlayerPhysics.Drain | src/entities/player.py:62 | Energy stays in [0, 100] and drops by 0.02 per update until it reaches 0. |
| PlayerPhysics.Update | src/entities/player.py:27-62 | Each velocity ends as the steered (for `vel_x`) or fallen (for `vel_y`) value, or 0 after a collision. After gravity `vel_y <= 20`. `just_jumped` holds iff a jump key was held on the ground. The coffee timer counts down, never below 0. Energy stays in [0, 100]. The score and items are untouched. Facing follows the keys. |
| PlayerPhysics.SpeedStaysBounded | src/entities/player.py:31-45 | A horizontal speed within 10.5, the boosted maximum, stays within it after an update. |
| PlayerPhysics.OnGroundMeansLanded | src/entities/player.py:59-82 | After an update, `on_ground` means the player fell onto a platform's top and stopped. |
| PlayerPhysics.NoJumpInTheAir | src/entities/player.py:47-53 | In the air, the vertical speed only gains gravity (clamped at 20) or is stopped. |
| PlayerPhysics.JumpFromGround | src/entities/player.py:47-60 | A jump from the ground sets the jump speed plus gravity and leaves the ground. |
| PlayerPhysics.EnergyAfter | src/entities/player.py:62 | After n updates the energy is `max(0, e - 0.02n)`. |
| PlayerPhysics.CoffeeBoostLasts | src/entities/player.py:31-35 | A coffee timer of t gives the boost for exactly t updates. |
| PlayerPhysics.StandingAlternates | src/entities/player.py:52-82 | A player resting on the ground with no keys held alternates: one update falls by less than a pixel and leaves it airborne with `vel_y` 0.65, and the next lands it again. |
| PlayerPhysics.FreeFlight | src/entities/player.py:52-60 | When neither move touches a platform, the player moves by the truncated steered and fallen velocities, keeps both, and is in the air. |
| PlayerPhysics.HorizontalStep | src/entities/player.py:55-71 | The horizontal velocity drops to 0 iff the x-moved box touches a platform. Otherwise the box keeps the moved x. |
| Geometry.Trunc | src/entities/player.py:55-58 | `int()` rounds toward zero for positive and negative values. |
| Geometry.TruncOfInt | src/entities/player.py:55-58 | Truncating a whole number gives it back. |
| CameraView.Apply | src/camera.py:11-12 | An entity is drawn translated by the camera offset, with its size kept. |
| CameraView.ClampOffset | src/camera.py:18-21 | An offset stays in [-(level - window), 0] when the level is at least as large as the window. Within that range it is the ideal offset. |
| CameraView.Update | src/camera.py:14-23 | The camera offset is the anchored offset of the target's centre, clamped on each axis. |
| CameraView.ViewInsideLevel | src/camera.py:14-23 | Every screen pixel maps into the level when the level is at least as large as the window. |
| CameraView.TargetAtAnchor | src/camera.py:15-16 | Away from the edges, the target's centre is drawn at a third of the width and half the height of the window. |
| CameraView.NoVerticalScroll | src/camera.py:16-21 | A camera exactly as tall as the window never scrolls vertically. |
| CameraView.FollowsMonotonically | src/camera.py:15-20 | The camera x never increases as the target moves right. |
| Ui.ThreatOf | src/ui.py:146-157 | The threat is 10, 40, 70 or 100, with each band stated iff on the squared distance against 400, 250 and 150. |
| Ui.BandsMatchDistance | src/ui.py:136-157 | The squared-distance bands agree with the source's bands on the true distance, and so does `can_see_player`. |
| Ui.ThreatNonIncreasing | src/ui.py:146-157 | The threat level is non-increasing in the distance. |
| Ui.Intelligence | src/ui.py:143 | "Adaptive" iff the brain holds analysis results, and "Learning" otherwise. |
| Ui.PanelUpdate | src/ui.py:132-157 | The panel shows the squared distance, the detection test, the intelligence and the matching threat band and reason. |
| Ui.HandleEvent | src/ui.py:71-83 | A click activates the field iff it is inside. Return on an active field submits and leaves the text. Backspace drops the last character, and does nothing on empty text. A printable character is appended while the text is short, so the text never exceeds `max_chars`. |
| Ui.BackspaceUndoesTyping | src/ui.py:75-81 | Typing one printable character and pressing Backspace restores the field. |
| Ui.ButtonUpdate | src/ui.py:20-37 | The button reports a press iff the mouse is inside and a click occurred. Hover follows the mouse. The scale becomes the old scale plus 0.02 capped at 1.05 while hovered, and minus 0.02 floored at 1 otherwise, so it stays in [1, 1.05]. |
| Ui.LeavingReturnsToRest | src/ui.py:27-29 | A fully grown button that the mouse has left shrinks back to scale 1 within three frames. |
| Ui.HoverReachesFullSize | src/ui.py:24-26 | Three hovered frames take a resting button to full size. |
| TextWrap.Words | src/ui.py:248 | Splitting produces only non-empty runs of non-space characters. |
| TextWrap.WordsOfJoin | src/ui.py:248-263 | Splitting words joined by spaces gives the words back. |
| TextWrap.WrapKeepsWords | src/ui.py:246-265 | The words of the wrapped lines, read in order, are exactly the words of the text. |
| TextWrap.LongLineIsOneWord | src/ui.py:254-260 | A line longer than the limit holds at most one word. |
| TextWrap.EmptyLineOnlyFirst | src/ui.py:248-263 | Only the first line can be empty, and it is empty exactly when the first word is at least as long as the limit. |
| TextWrap.BlankTextNoLines | src/ui.py:248 | Whitespace-only text wraps to no lines. |
| TextWrap.EmptyFirstLineExample | src/ui.py:253-260 | As written, `"abc"` with limit 3 wraps to `["", "abc"]`. |
| TextWrap.ShortFirstLineExample | src/ui.py:253-260 | As written, `"ab cd"` with limit 5 is split although `"ab cd"` fits. |
| TextWrap.WrapTextFixed | src/ui.py:246-265 | The corrected wrap never produces an empty line. |
| TextWrap.WrapFixedIsWrapping | src/ui.py:246-265 | The corrected wrap keeps the words in order, and only a single word ever exceeds the limit. |
| TextWrap.FixedExampleLongWord | src/ui.py:253-260 | The corrected wrap gives `["abc"]` for `"abc"` with limit 3. |
| TextWrap.FixedExampleTwoWords | src/ui.py:253-260 | The corrected wrap gives `["ab cd"]` for `"ab cd"` with limit 5. |
| Intro.NewIntro | src/intro.py:11-23 | A new intro is at frame 0, stage 0, typing nothing. |
| Intro.Speed | src/intro.py:59-60 | A character is typed every 2 frames on AI-voice lines and every 3 frames otherwise. |
| Intro.NextStage | src/intro.py:95-113 | A clearing line empties the screen. Any other line is kept, in its colour or white. Typing restarts, the stage advances by one, and the intro finishes exactly after the last line. |
| Intro.Update | src/intro.py:48-93 | The typed text is always the prefix of the line given by the character index. A finished intro does not change. Otherwise the frame advances by one, and the stage advances exactly when a wait has run out. |
| Intro.TypingFrame | src/intro.py:76-93 | On a typing frame one character is added. On an off frame nothing is added. A fully typed line starts waiting until `frame + pause`. |
| Intro.OneCharPerSpeedFrames | src/intro.py:77-82 | Each character of a line takes exactly `speed` frames. |
| Intro.LineTypedInTime | src/intro.py:77-93 | From a typing frame, the remaining characters of a line are typed in `speed` frames each. |
| Intro.WaitHolds | src/intro.py:69-74 | While waiting, the stage does not advance before `wait_until`. |
| Intro.WaitEndsOnTime | src/intro.py:69-74 | The stage advances on the first update at or after `wait_until`. |
| Intro.FinishesAfterLastLine | src/intro.py:109-113 | An update finishes the intro iff it ends the wait on the last line. |
| Intro.NewIntroValid | src/intro.py:11-40 | The intro's script starts in a consistent state. |
| Game.Value | src/config.py:60-65 | Every collectible is worth a positive number of points. |
| Game.BuildWorld | src/game.py:107-177 | Level 2 has 15 platforms and every other level 17, each layout with the ground first. Each level has 9 items. The student spawns at (100, 600) and the AI at (2600, -200), learning from the stored analysis when it succeeded. The exit is at (2950, 590). The camera spans the 3200-wide level. |
| Game.SpawnAI | src/game.py:164-172 | The new AI has learnt from the stored sessions iff their analysis succeeded. |
| Game.CreateLevel | src/game.py:107-177 | Building a level sets the level number and world and changes nothing else. |
| Game.SpawnIsSafe | src/game.py:112-177 | In a fresh level the student touches no item, not the AI and not the exit. |
| Game.Respawn | src/game.py:390-401 | The player returns to (100, 600) and the AI to (2600, -200), both at rest. Items, platforms and the exit are untouched. |
| Game.RespawnKeepsProgress | src/game.py:390-401 | Respawning keeps the score, the item counts, the AI's slowdown and what it learnt. |
| Game.Pick | src/game.py:342-351 | An item adds its value to the score and one to its kind's count. A coffee restarts the energy timer at 180. |
| Game.CollectAll | src/game.py:341-357 | Every item is either kept or taken. Taken items overlap the player and kept ones do not. |
| Game.CollectAllScores | src/game.py:341-357 | The score grows by the taken items' values, and each kind's count by the number of that kind taken. Nothing else about the player changes except the coffee timer. |
| Game.CollectAllEffects | src/game.py:346-351 | A coffee taken sets the coffee timer to 180, and a brain taken slows the AI for 180. Without them neither changes. |
| Game.CollectAllOnce | src/game.py:341-357 | No item is collected twice: a second pass with the player where it is takes nothing. |
| Game.ItemFate | src/game.py:341-357 | An item overlapping the player is taken and leaves the level. Any other item stays. |
| Game.EventsOf | src/game.py:357 | One COLLECT event per taken item, in order, stamped with the elapsed time. |
| Game.Remaining | src/game.py:309-311 | The remaining time is never negative, and it is 0 exactly when 120 s have elapsed. |
| Game.LoseLife | src/game.py:311-322 | A life is lost. At 0 lives the game is over, with the outcome and score recorded and the high score raised. Otherwise both actors respawn. |
| Game.Log | src/game.py:329-333 | Every 15th tick the threat level and the player's centre are logged. The counter stays in [0, 15). |
| Game.Advance | src/game.py:323-358 | The player moves, then the AI reacts to the moved player, then the items in reach are collected and logged. |
| Game.ReachExit | src/game.py:372-387 | Levels 1 to 3 are completed with outcome LEVEL_n_COMPLETE. Level 4 is escaped, with the high score raised. |
| Game.PlayingTick | src/game.py:308-388 | The high score never decreases. The remaining time is set. A tick loses at most one life. The game is over iff the last life was lost. Every ending records a score no higher than the high score. |
| Game.TimeoutCostsALife | src/game.py:309-322 | Out of time, a tick only loses a life and respawns. The last life ends the game with outcome TIMEOUT. |
| Game.TimeoutCascade | src/game.py:309-322 | Respawning does not restart the clock, so with L lives left, exactly L ticks end the game with outcome TIMEOUT. |
| Game.CatchBeatsExit | src/game.py:359-371 | A catch is checked first: a caught player loses a life and never completes the level in that tick. |
| Game.ExitEndsLevel | src/game.py:372-387 | An uncaught player at the exit completes the level, or wins on the last one. |
| Game.StartNewGame | src/game.py:227-242 | PLAY gives full lives, level 1, a fresh session and a clock started now. |
| Game.Restart | src/game.py:251-257 | RESTART gives full lives and level 1 but keeps the session log. |
| Game.NextLevel | src/game.py:245-250 | The next level starts with lives and session kept. |
| Game.QuitToHome | src/game.py:216-223 | The EXIT button ends the session as QUIT with the current score and goes HOME, with the play button ready. |
| Game.HomeStep | src/game.py:224-242 | HOME's loading counter counts up to 120. A new game starts iff PLAY is clicked on a frame where loading is complete. The new game has full lives, level 1, a fresh session and a clock started now. |
| Game.ExitStep | src/game.py:216-223 | While playing, the game leaves for HOME iff EXIT is clicked. |
| Game.LevelCompleteStep | src/game.py:245-250 | The next level starts iff its button is clicked. |
| Game.GameOverStep | src/game.py:251-257 | A restart happens iff RESTART is clicked. |
| Game.VictoryStep | src/game.py:258-262 | The game returns HOME iff the victory button is clicked. |
| Game.HandleButtons | src/game.py:216-262 | The button pass keeps the high score. Without a click no screen changes. |
| Game.HandleInputs | src/game.py:179-193 | A quit request, or Escape outside PLAYING, closes the game. Escape while playing goes HOME. Mouse presses register a click. |
| Game.HandleFrame | src/game.py:179-263 | A frame of input never changes the high score, and a quit request always closes the game. |
| Game.StartAndRestartResetLives | src/game.py:224-257 | Starting from HOME and restarting from GAME_OVER both give full lives on level 1. Only the start clears the session. |
| Game.Layout | src/game.py:604-662 | Drawing moves only the current end screen's button: to 50 below the congratulations image (60 rows reserved for a text title), to 65 below the victory image (80 for a title), or to 55 below the game-over image (80 for a title), 200 rows from the top. Other screens are unchanged. |
| Game.LayoutIdempotent | src/game.py:619-662 | Drawing the same screen twice places the buttons where drawing it once did. |
| Game.LaidOutNextLevelClick | src/game.py:245-250 | Once LEVEL_COMPLETE has been drawn, a click starts the next level iff it falls in the button at its drawn row. |
| Game.NextLevelClickWithoutImage | src/game.py:620-621 | Without a congratulations image, a click at (640, 330) starts the next level, although that point lies outside the button as created at row 400. |
| Game.Frame | src/game.py:673-679 | A pass of the main loop (events, then the PLAYING tick, then drawing) keeps the state valid, never lowers the high score, and ends the game on a quit request. |
| Game.HighScoreNeverDecreases | src/game.py:308-388 | Input handling never changes the high score, and the PLAYING tick that follows never lowers it. |

## Left out

- **Rendering and `draw` methods.** Everything drawing does besides moving the end-screen buttons, which `Game.Layout` models. This includes the panel's confidence bar and the collectibles' floating bob. The bob only offsets where an item is drawn. Also left out: the exit's glow animation, the player's sprite variant and carry state (only drawing depends on it), and the animation timers.
- **Audio, video frames, the opening video, and the INTRO state in the game loop.** The VIDEO→HOME fade depends on loaded video frames, which are I/O. The typewriter sequencer itself is modelled in `Intro`.
- **File I/O.** Saving sessions and the high score, reading the sessions file, and loading the configuration JSON. The constants are fixed at their defaults. The stored high score is a parameter of `Game.NewGame`.
- **The summary's `average_score`, `max_score`, `outcomes` and `avg_position`.** These are pandas and numpy float aggregates that no modelled component reads.
- **The `ai_decisions` log.** The AI's behaviour state never leaves CHASE, so the log stays empty.
- **Session start time and player name.** Wall-clock strings.
- **The quit button on HOME.** It is created but never used.
- **Exact IEEE float behaviour.** Velocities and times are exact reals.
- **Square roots.** The panel's displayed distance and the numeric confidence value are characterised by a predicate, not computed.
- Ui.PrintableChar: approximates `str.isprintable()` on one character. It rejects the control characters, DEL, the C1 controls and the no-break space. Unicode's full list of non-printable categories is not modelled.
- TextWrap.IsSpace: is the whitespace set of `str.split()` for ASCII and Latin-1 only. Wider Unicode spaces are not modelled.
- Ui.HandleEvent: the length bound is stated for key events carrying at most one character, which is what a key press delivers. The source appends the whole `unicode` string after checking only that the current text is short.
- Game.Layout: the drawn image heights are a parameter (`Art`). They come from the loaded images' sizes and the scaling rule, which is floating-point I/O.
- SessionAnalysis.Analyze: positions are always numeric pairs. Malformed or ragged entries in the sessions file raise in the analysis, and that error is not caught by the caller; such files are not modelled.
- Game.CollectAll: does not state that the kept items remain in their original order. The order only affects drawing.
- Game.HandleInputs: models only the events the game reacts to. The SPACE handling of the VIDEO and INTRO screens is not part of this model.

## Findings

| source | as written | input that shows it | evidently intended | confidence | as-written member | corrected member |
|---|---|---|---|---|---|---|
| src/ui.py:253-260 | The running length starts at 0 and adds `len(word) + 1` for each word accepted into the first line, but a word that opens a later line starts it at `len(word)`. So the first line is judged one character short. A first word at least as long as the limit makes the loop emit an empty first line. | `wrap_text("abc", 3)` gives `["", "abc"]`. `wrap_text("ab cd", 5)` gives `["ab", "cd"]` although `"ab cd"` has 5 characters. | A word joins the current line when the line is empty or the joined line stays within the limit, so no line is empty. | medium, not executed | TextWrap.EmptyFirstLineExample | TextWrap.WrapFixedIsWrapping |
