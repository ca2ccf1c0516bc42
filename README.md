# Dodgeball arena: game turn machine and score service

This project models two parts of a small browser dodgeball game.

The first is the game loop in `public/game.js`. Human and AI throwers stand along the top of the court. Each of them throws a single ball at four dodgers, one thrower after another. The loop covers:
- building the teams and copying the difficulty tuning onto the dodgers;
- accepting a throw only on the thrower's turn and only when no ball is in flight;
- moving the ball and killing the first living dodger it touches;
- resolving a throw: crediting a human hit, rotating the turn and ending the game when every dodger is dead;
- the human movement and throw-key handling;
- the rate-limited AI dodge rule;
- the periodic AI-turn watcher;
- the start and exit handlers.

The second is the score service in `server.js`:
- `/api/start` creates a player with a fresh id;
- `/api/score` validates a submission and upserts one statistics row per (player, role, difficulty);
- `getLeaderboard` filters, orders and limits those rows.

## Modules

- **Wrappers**: `Option` and `Result`.
- **Tiers**: the three difficulty tiers and their wire names. The game and the server both use them.
- **GameRules**: the pure pieces of the game. It holds the entities, the `DIFF` table, the factories and the team line-ups. It also holds clamped movement, the AI dodge step, collision, the hit credit and turn rotation.
- **GameState**: `View`, one value holding every module-level variable of the game. Each operation of the game has a specification function from `View` to `View`. The module also holds the lemmas about the game state: single flight, fresh ball ids, the first-touch kill, the terminal condition, and the throw-key edge detection. The turn-rotation and score lemmas are about single values and live in GameRules.
- **GameSession**: class `Session`. Its fields are the game's module-level variables, updated in place. Each game operation is proved against the GameState function of the same name; `SelectMode` against the one-field update of the mode. The loops `PlaceThrowers` and `RecruitDodgers` are proved against the GameRules line-up functions. The ghost fields `issued` (every ball id handed out) and `resolutions` (the number of resolved throws) carry the invariants that span several calls.
- **Server**: the score validator, the upsert, `Replay`/`Tally` (the table built by a run of submissions against a direct count), and the leaderboard specification. Class `Database` holds the two tables as maps plus the auto-increment counter.
- **ScoreClient**: the request the game sends to `/api/score` when a game ends, and what the server does with it.

Positions, speeds and time steps are `real`. Court width and height are constructor parameters. `Math.random` draws come in as `Roll` records and `Date.now()` as an integer parameter.

## Model

| member | source | states |
|---|---|---|
| Tiers.ParseDifficulty | server.js:157 | a difficulty name is accepted exactly when it is one of easy, medium, hard |
| Tiers.DifficultyNameRoundTrip | server.js:157 | parsing the name of a tier gives back that tier, and the name is the only string that parses to it |
| GameRules.Diff | public/game.js:100-104 | every tier has a positive reaction latency, a success rate strictly between 0 and 1 and a positive speed |
| GameRules.HarderTiersAreSharper | public/game.js:100-104 | harder tiers react sooner, succeed more often and move faster |
| GameRules.FactoriesMakeFreshParticipants | public/game.js:107-118 | each factory makes an alive participant at unit speed, human or AI as named; throwers start at (W/2, 60), dodgers at (startX, H/2) with no reaction yet; AI participants have no key binding |
| GameRules.TeamThrowersShape | public/game.js:170-206 | thrower mode with one human gives [human, AI], with two humans [human, human]; dodger mode gives two AI throwers; all alive on the top line y = 60, at x = 0.4W and 0.6W |
| GameRules.TeamDodgersShape | public/game.js:170-214 | always four living dodgers; in dodger mode exactly the first k are human; every dodger carries the DIFF tuning of the chosen tier |
| GameRules.Clamp | public/game.js:376-377 | the result is v inside [lo, hi], lo below it and hi above it |
| GameRules.Offset | public/game.js:372-375 | opposite direction keys cancel; a single key moves by the step towards its side |
| GameRules.MoveThrower | public/game.js:370-377 | a human thrower moves only in x and y, to its position plus the net key displacement of step times its speed multiplier, clamped to [30, W-30] x [30, H-30] |
| GameRules.MoveDodger | public/game.js:396-406 | a human dodger moves only in x and y, to its position plus the net key displacement of the base step, clamped to [30, W-30] across and [0.4H, 0.6H] down |
| GameRules.IdleHumansStayPut | public/game.js:366-407 | with no movement key pressed, a human already inside its area does not move |
| GameRules.AIDodgerStep | public/game.js:326-358 | only x and the reaction time change; human and dead dodgers never change; with a ball, it reacts only after the latency and then stamps the time; with no ball, the drift stays in [30, W-30] |
| GameRules.DodgeTowardsRoomierSide | public/game.js:336-355 | from any position, even off the court after a stray step, a successful reaction to a ball within 120 px moves 80*speed towards the side with more room, clamps to the court and stamps the reaction time |
| GameRules.ReactsAtMostOncePerLatency | public/game.js:337-339 | after a reaction at time t, no further reaction happens before t + latency |
| GameRules.FailedReactionLeavesCourt | public/game.js:341-345 | a failed reaction is not clamped: a concrete easy dodger near the right wall ends up beyond W-30 |
| GameRules.FirstHit | public/game.js:270-282 | the result is the first dodger from the start index that the ball touches; none before it is touched; none at all when the result is None |
| GameRules.AliveCount | public/game.js:411-413 | the number of living dodgers is at most the number of dodgers |
| GameRules.AliveCountZero | public/game.js:308-309 | the alive count is 0 exactly when no dodger is alive |
| GameRules.KillLowersAliveCount | public/game.js:276-278 | killing one living dodger lowers the alive count by exactly one |
| GameRules.OwnerOf | public/game.js:292 | the owner exists exactly when the ball's owner index lies inside the thrower list, and it is that thrower |
| GameRules.Credit | public/game.js:292-295 | the score rises by exactly one when the throw hit and its owner is human, and stays the same otherwise |
| GameRules.ScoreCountsHumanHits | public/game.js:292-295 | over any run of resolutions, the score grows by the number of human hits and never decreases |
| GameRules.NextTurn | public/game.js:299 | the next turn index lies within the thrower list |
| GameRules.NextTurnIsMod | public/game.js:299 | the next turn is (current + 1) mod the number of throwers |
| GameRules.TurnAfter | public/game.js:217 | the turn index after k resolutions lies within the thrower list |
| GameRules.TurnAfterIsMod | public/game.js:217 | starting from 0, the turn after k resolutions is k mod the number of throwers |
| GameState.Initial | public/game.js:81-97 | the initial state is consistent, stopped, with no ball and a zero score |
| GameState.Spawn | public/game.js:253-255 | a spawned ball has the next id, the given owner, starts 30 px below the thrower and flies downwards (direction 1), and sets the in-flight flag; nothing else changes |
| GameState.AttemptThrow | public/game.js:242-262 | a throw that breaks a guard changes nothing; an accepted one is exactly the spawn of a ball owned by the thrower at its position; score and turn never change; consistency is kept |
| GameState.AiThrow | public/game.js:313-323 | the AI throw changes nothing while a ball flies or off turn, and otherwise spawns a ball owned by idx; it checks neither alive nor running |
| GameState.SingleFlight | public/game.js:245-255 | once a ball is in flight, neither attemptThrow nor aiThrow changes anything |
| GameState.FreshBallIds | public/game.js:254-255 | a spawned ball's id is larger than every id issued before |
| GameState.Resolve | public/game.js:290-310 | the ball is cleared; the turn rotates; the score rises by one exactly for a human hit; the game keeps running exactly when a dodger is alive; nothing else changes |
| GameState.ResolveTracked | public/game.js:299 | after k+1 resolutions the turn index equals TurnAfter(k+1), and all issued ids stay tracked |
| GameState.ScheduledThrow | public/game.js:302-306 | an AI throw is scheduled exactly when the new current thrower is AI, and for that index |
| GameState.BallStep | public/game.js:265-287 | dead dodgers are untouched; at most one dodger changes; the alive count falls by at most one; the score rises by at most one; the game ends exactly when no dodger is alive; a ball still flying has only advanced; the turn moves on exactly when the ball is resolved |
| GameState.BallStepKillsFirstTouched | public/game.js:270-282 | a dodger killed in a step was touched by the moved ball, and no living dodger before it was touched |
| GameState.FirstTouchedIsKilled | public/game.js:270-281 | the first living dodger in list order that the moved ball touches is killed and the throw is resolved as a hit |
| GameState.MissOffScreenResolves | public/game.js:284-286 | a ball that touches no living dodger and is beyond -40 or H+40 is resolved as a miss |
| GameState.MissOnScreenKeepsFlying | public/game.js:268-286 | a ball that touches nobody and is still between -40 and H+40 keeps flying and only moves |
| GameState.DodgersStep | public/game.js:326-363 | each dodger is replaced by its AIDodgerStep with its own draw, the current tier speed and the ball as it was at the start of the loop; human and dead dodgers stay the same; consistency is kept |
| GameState.MovedThrower | public/game.js:369-377 | a living human thrower takes the MoveThrower step; any other thrower is unchanged |
| GameState.MovedThrowers | public/game.js:369-377 | each thrower takes its MovedThrower step; only positions change, and only those of living humans |
| GameState.MovedThrowersStayInArea | public/game.js:376-377 | after the step every living human thrower is inside [30, W-30] x [30, H-30] |
| GameState.MovedDodger | public/game.js:396-406 | a dodger moves only in x and y, only when it is a living human with a binding, and then exactly by its keys as MoveDodger, staying in [0.4H, 0.6H] |
| GameState.MovedDodgers | public/game.js:396-407 | every living human dodger with a binding takes its MoveDodger key step inside its band; every other dodger is unchanged |
| GameState.ThrowerTick | public/game.js:369-392 | one pass of the thrower loop keeps the line-up's length and bindings |
| GameState.ThrowersLoopClosedForm | public/game.js:369-392 | after i passes, the first i throwers are moved, the flag is the edge-detection result, and a throw fires at most once, from the thrower whose key fired |
| GameState.ThrowersPhase | public/game.js:369-392 | the thrower phase moves the human throwers, updates the shared flag, and spawns a ball exactly when the throw key fires on the current living human's turn with no ball in flight |
| GameState.HumansStep | public/game.js:366-408 | the throwers become MovedThrowers and the dodgers MovedDodgers at 300 px per second; score, turn, running flag and mode are unchanged; a ball is spawned exactly when the throw key fires, on the current thrower's turn |
| GameState.HandledAfterAppend | public/game.js:379-392 | the shared flag after two groups of throwers is the flag after the first group fed into the second |
| GameState.NoHumansKeepFlag | public/game.js:379-392 | without living human throwers the shared flag stays as it is |
| GameState.HeldThrowKeyFiresOnce | public/game.js:379-392 | with one human thrower, holding the key sets the flag, so the next frame does not fire again |
| GameState.SharedFlagIsClearedByOtherThrower | public/game.js:379-392 | with two human throwers, the second thrower's released key clears the flag the first just set, so a held key fires again the next frame |
| GameState.Tick | public/game.js:447-469 | a stopped game does not change; a frame raises score and ball id by at most one each, never revives a dodger, kills at most one, and ends the game exactly when none is alive |
| GameState.AliveCountRespectsAliveFlags | public/game.js:411 | two line-ups with the same alive flags have the same alive count |
| GameState.AllAliveCount | public/game.js:411 | when every dodger is alive the count is the team size |
| GameState.ObserveTurn | public/game.js:525-531 | the watcher throws exactly when the game runs, no ball flies and the current thrower is AI, and then the new state is exactly the spawn of a ball by the current thrower: score and everything else kept |
| GameState.BuildTeams | public/game.js:165-220 | the new state has the chosen tier, the TeamThrowers and TeamDodgers line-ups and turn index 0, and nothing else changes; so two throwers and four living dodgers |
| GameState.Start | public/game.js:472-495 | a name that trim() empties changes nothing; otherwise mode and tier are set, the line-ups are TeamThrowers and TeamDodgers, the turn is 0 and the game runs; score and ball are kept |
| GameState.Exit | public/game.js:510-515 | exit stops the game, clears the ball and the flag and zeroes the score; the teams, the turn, the ball id counter, mode, tier and throw flag are kept |
| GameState.ScheduledCallbackAsWritten | public/game.js:305 | the deferred callback as written throws whenever no ball is in flight, for whatever index is current when it fires |
| GameState.StaleCallbackThrowsOnHumanTurn | public/game.js:303-306 | as written, a pending AI timer that fires on a human's turn throws from the AI's position a ball owned by the human, and a hit raises the human score |
| GameState.CapturedCallbackRespectsTurn | public/game.js:303-306 | with the index captured when the timer is set, a stale timer throws nothing, and a ball it throws is the AI's own, so a hit leaves the score unchanged |
| GameSession.Session.constructor | public/game.js:81-97 | a new session is in the initial state, with nothing issued and nothing resolved |
| GameSession.Session.SelectMode | public/game.js:498-507 | only the mode changes |
| GameSession.Session.AttemptThrow | public/game.js:242-262 | returns whether the guards passed and updates the state as GameState.AttemptThrow does; an accepted throw issues a new id |
| GameSession.Session.AiThrow | public/game.js:313-323 | updates the state as GameState.AiThrow does, and issues a new id exactly when it throws |
| GameSession.Session.FireScheduledThrow | public/game.js:303-306 | the timer callback as written: behaves as ScheduledCallbackAsWritten |
| GameSession.Session.ResolveBall | public/game.js:290-310 | updates the state as GameState.Resolve does; returns the AI index to schedule; the turn index equals the resolution count mod the thrower count |
| GameSession.Session.UpdateBall | public/game.js:265-287 | the loop over dodgers gives GameState.BallStep; the resolution count rises by one exactly when the ball was resolved, so the turn index stays the resolution count mod the thrower count |
| GameSession.Session.UpdateAIDodgers | public/game.js:326-363 | the loop over dodgers gives GameState.DodgersStep |
| GameSession.Session.HandleThrower | public/game.js:369-392 | one iteration of the thrower loop is one ThrowerTick |
| GameSession.Session.UpdateHumanThrowers | public/game.js:369-392 | the loop over throwers gives GameState.ThrowersPhase |
| GameSession.Session.UpdateHumanDodgers | public/game.js:396-407 | the loop over dodgers gives MovedDodgers, and nothing else changes |
| GameSession.Session.UpdateHumans | public/game.js:366-408 | the whole movement step gives GameState.HumansStep |
| GameSession.Session.Frame | public/game.js:447-469 | one frame gives GameState.Tick, resolves at most one ball, and keeps the turn index equal to the resolution count mod the thrower count |
| GameSession.Session.ObserveTurnForAI | public/game.js:525-531 | the watcher gives GameState.ObserveTurn |
| GameSession.Session.BuildTeams | public/game.js:165-220 | the rebuilt line-ups and turn index are those of GameState.BuildTeams |
| GameSession.Session.Start | public/game.js:472-495 | the whitespace scan of the name and the start give GameState.Start; the issued ids are kept; the resolution count restarts at 0 on a real start and is kept for a blank name |
| GameSession.Session.Exit | public/game.js:510-515 | behaves as GameState.Exit; the resolution count and the issued ids are kept |
| GameSession.PlaceThrowers | public/game.js:170-206 | the thrower line-up it builds is TeamThrowers |
| GameSession.RecruitDodgers | public/game.js:170-214 | the dodger line-up it builds, with the tier's tuning copied on, is TeamDodgers |
| Server.ParseRole | server.js:156 | a role name is accepted exactly when it is dodger or thrower |
| Server.RoleNameRoundTrip | server.js:156 | parsing a role's name gives back the role, and only that name parses to it |
| Server.ValidateScore | server.js:153-166 | the four rejections happen exactly in the order id, role, difficulty, player; an accepted submission keeps the request's id, role, tier and score (with defaults dodger, easy, 0), and has win 1 exactly for "win" and loss 1 exactly for "loss" |
| Server.Upsert | server.js:169-178 | on the unique key of server.js:48, only the row of the submission's key is touched; a new row starts at one game; an existing row adds score, one game, wins and losses |
| Server.UpsertCoherent | server.js:169-179 | an upsert keeps every row with at least one game and wins plus losses at most games |
| Server.ReplayIsTally | server.js:169-179 | the table built by a run of submissions holds a row for a key exactly when the key was submitted, and that row is the direct count of the key's submissions |
| Server.ReplayCoherent | server.js:169-179 | any run of proper submissions builds a coherent table |
| Server.HighestExists | server.js:104 | every non-empty set of rows has a row with the highest total score |
| Server.OrderDesc | server.js:104 | the ordering holds every selected row once, by non-increasing total score |
| Server.Leaderboard | server.js:95-113 | only rows of the chosen role and tier; non-increasing score; at most limit rows, fewer only when there are fewer; every row left out scores no more than the last row kept |
| Server.TopOfSorted | server.js:105 | a prefix of a sorted list stays sorted, and nothing after it scores more than its last element |
| Server.LeaderboardOnePerPlayer | server.js:48 | because the key is unique, a leaderboard lists each player at most once |
| Server.Database.constructor | server.js:31-49 | both tables start empty |
| Server.Database.CreatePlayer | server.js:83-88 | the new player gets an id larger than every earlier id; the statistics table is untouched |
| Server.Database.Start | server.js:116-126 | a missing or empty name is refused and creates no player; any other name creates one player with a fresh id |
| Server.Database.SubmitScore | server.js:151-186 | the result is ValidateScore; an accepted submission upserts its row; a refused one leaves both tables unchanged |
| ScoreClient.RoleFor | public/game.js:429 | a thrower-mode game reports the thrower role, any other game the dodger role |
| ScoreClient.EndGameRequestAccepted | public/game.js:424-433 | the request the game sends for a known player is accepted, with the game's role, tier and score, and with no win and no loss |
| ScoreClient.EndGameRequestUnknownPlayer | public/game.js:424-433 | the request of an unknown player is refused as player not found |
| ScoreClient.ClientReportsRecordNoResults | server.js:163-166 | tables built only from the game's own reports never count a win or a loss |

## Left out

- Canvas drawing, `resize`, the DOM, the menus, the HUD text and `alert`: presentation. Court width and height are fixed when the session is made.
- The `fetch` calls. `endGame` is modelled only as stopping the game. What it would post is `ScoreClient.EndGameRequest`.
- `setTimeout`, `setInterval` and `requestAnimationFrame`: host scheduling. The deferred AI throw is `FireScheduledThrow` / `AiThrow`, the watcher is `ObserveTurnForAI` and the animation callback is `Frame`. Any interleaving of these calls can be made from them.
- `Math.random` draws are `Roll` parameters, one per dodger per frame.
- `Date.now()`: the source reads it once per dodger, but the model reads it once per frame.
- IEEE floating point: positions and speeds are exact reals, so rounding is not modelled.
- GameRules.AIDodgerStep: does not bound the 0.02*speed centre drift or the random jitter; it only states that the drift is clamped.
- Keyboard listeners: the pressed keys arrive as a set of key codes.
- GameSession.Session.AiThrow: requires a non-empty thrower list. It is only reached after `buildTeams`, which always builds two throwers.
- GameSession.Session.BuildTeams: requires at least one human thrower in thrower mode. The menu offers only 1 or 2, and the source defaults to 1.
- The leaderboard's order among rows with equal total score is left open, as MySQL leaves it. `Server.Leaderboard` is therefore a ghost specification, not an executable query.
- The default arguments of `getLeaderboard` and the `parseInt` of the leaderboard route's query string are not modelled.
- The 32-bit range of the MySQL `INT` columns is not modelled; the counters are unbounded integers.
- Collations, `created_at`/`updated_at`, the seed rows, `/api/mechanics`, `/api/health` and the 500 error paths are database plumbing.
- JSON values of the wrong type are not modelled. A request field is either absent or a string or integer of the expected kind. `playerId` counts as missing when it is absent or 0.
- The code has no obstacles, abilities, aim angles, shields or freeze effects, so the model has none.
- The client never sends a `result`, so wins and losses stay zero for its reports (`ScoreClient.ClientReportsRecordNoResults`). The server's handling of `result` is modelled all the same.

## Findings

| source | as written | input that shows it | evidently intended | confidence | as-written member | corrected member |
|---|---|---|---|---|---|---|
| public/game.js:305 | the scheduled callback passes `currentThrowerIndex` as read when the timer fires, so the `idx !== currentThrowerIndex` guard of `aiThrow` always passes | throwers [human, AI]. The human's ball resolves, so the turn passes to the AI and a timer is set. The watcher throws for the AI, and that ball resolves before the timer fires, so the turn is back at the human. The timer then throws from the AI's position a ball owned by the human, and a hit credits the human | the callback passes the index that was current when it was scheduled, so a stale timer throws nothing | not executed | GameState.StaleCallbackThrowsOnHumanTurn | GameState.CapturedCallbackRespectsTurn |
