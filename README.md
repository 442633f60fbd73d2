# Bird-and-pipes environment and DQN observation encoder, in Dafny

This project models the two pieces of the Android reinforcement-learning
game that a pretrained policy depends on.

- **The game.** `GameState` is a frame-stepped simulation of a bird flying
  between pairs of pipes. `reset()` starts an episode. `frameStep` advances
  one frame and returns a reward and a terminal flag. Each frame:
  - a requested flap is accepted;
  - pipes being passed are scored;
  - the animation counters and the ground scroll advance;
  - gravity moves the bird;
  - the pipes scroll left, are dropped and spawned;
  - the frame is terminal when the bird touches the ground line or a pipe,
    and then the game resets itself.
- **The observation encoder.** `DQNModel` thresholds each resized frame,
  keeps the last four frames in a deque, lays them out as a 4x84x84 input
  and picks the action with the first maximal score.

Modules:

- `KotlinInt` (kotlin_int.dfy): Kotlin's truncating `/` and `%` on `Int`.
- `GameRules` (game_rules.dfy): the game's state as a `World` value, one
  frame as the function `Step`, and what every frame preserves.
  - The invariant `Inv` says the counters are in range and the velocity is in
    `[-9, 10]`.
  - It also says the two pipe lists are parallel and paired around a gap
    that `Random.nextInt` can return.
  - It also says the pipes are strictly ordered by x, and the newest pipe
    has not yet passed the spawn threshold.
- `Game` (game_state.dfy): class `GameState`, whose fields `reset`/`frameStep`
  update in place. Each method is proved to perform exactly the transition of
  `GameRules`. `FrameStep`'s new state, reward and terminal flag are those of
  `Step`.
- `Observation` (observation.dfy): the threshold, the frame deque and the
  tensor layout as values, with lemmas about them.
- `Dqn` (dqn_model.dfy): class `DQNModel`, whose methods fill arrays and
  update the deque. They are proved against the `Observation` functions.

Modelling choices:

- **Random draws.** `Random.nextInt(minY + gapSize, maxY)` is an arbitrary
  choice from that range (`GameState.RandomPipe`). The values drawn in a frame
  come back from `FrameStep` as ghost `Draws`, so its result can be stated as
  `Step(cfg, old, flap, draws)` for draws in range.
- **Float-derived configuration.** The four values the game computes with
  floating point are parameters of `Config`: `playerX` (a fifth of the
  width), `groundY` (79% of the height), `minY` and `maxY`. `maxY` is the
  field as the game stores it, already lowered by the gap size.
- **Rewards and frames.** Rewards are the reals 0.1, 1.0 and -1.0. Frame
  values are the integers 0 and 255, which the floats 0.0f and 255.0f
  represent exactly.
- **Action encoding.** A flap is requested by `inputActions[1] == 1`, as in
  the source.
- **Threshold.** The threshold is `red > 1`, as the code compares;
  `ThresholdOfArgb` states that red 0 and red 1 are both off.
- **Pipe positions.** The code's pipe positions are used: a fresh world's
  pipes at `W + 100` and `W + 100 + W/2 + pipeWidth/2`, spawned pipes at
  `W + 10`.

## Model

| member | source | states |
|---|---|---|
| `KotlinInt.Div` | app/src/main/java/com/alihan/rlproject/GameState.kt:55 | Kotlin `/` (truncating) agrees with floor division on a non-negative dividend and positive divisor |
| `KotlinInt.Rem` | app/src/main/java/com/alihan/rlproject/GameState.kt:102-108 | Kotlin `%` takes the dividend's sign and is smaller in magnitude than the divisor |
| `KotlinInt.DivRemIdentity` | app/src/main/java/com/alihan/rlproject/GameState.kt:102-108 | truncating quotient and remainder recombine to the dividend |
| `GameRules.Shifted` | app/src/main/java/com/alihan/rlproject/GameState.kt:120-123 | the shifted list keeps its length and its strict order by x, and its newest pipe is the old newest moved 4 to the left |
| `GameRules.PassedCount` | app/src/main/java/com/alihan/rlproject/GameState.kt:93-100 | the number of pipes scored in one frame is at most the number of pipes |
| `GameRules.PassedCountPositive` | app/src/main/java/com/alihan/rlproject/GameState.kt:93-100 | the scoring loop scores something exactly when some upper pipe's midpoint window holds the player's midpoint |
| `GameRules.ResetEstablishesInv` | app/src/main/java/com/alihan/rlproject/GameState.kt:50-67 | `reset()` leaves the invariant holding, with exactly two pipe pairs |
| `GameRules.CountersStayBounded` | app/src/main/java/com/alihan/rlproject/GameState.kt:102-108 | `loopIter` stays in 0..29, `playerIndex` in 0..2, `baseX` in (-baseShift, 0] |
| `GameRules.FallClamps` | app/src/main/java/com/alihan/rlproject/GameState.kt:110-118 | after gravity the player is never above y 0, never sinks through the ground when it fits above it, and the flap flag is clear |
| `GameRules.ShiftKeepsPairedAscending` | app/src/main/java/com/alihan/rlproject/GameState.kt:120-123 | shifting keeps the lists parallel, paired and strictly ordered by x |
| `GameRules.DropFrontKeepsPairedAscending` | app/src/main/java/com/alihan/rlproject/GameState.kt:125-130 | removing the front pair keeps the lists parallel, paired and ordered |
| `GameRules.SpawnKeepsPairedAscending` | app/src/main/java/com/alihan/rlproject/GameState.kt:132-140 | appending a pair beyond the newest pipe, with an in-range gap, keeps the lists parallel, paired and ordered |
| `GameRules.ShiftDropKeepsPairedAscending` | app/src/main/java/com/alihan/rlproject/GameState.kt:120-130 | shift then drop keeps the lists parallel, paired and ordered |
| `GameRules.MovePipesKeepsPipesOk` | app/src/main/java/com/alihan/rlproject/GameState.kt:120-140 | the pipe stage keeps the lists parallel, paired, ordered, with the newest pipe at or beyond the spawn threshold |
| `GameRules.MovePipesShape` | app/src/main/java/com/alihan/rlproject/GameState.kt:120-140 | the kept pipes are the old ones shifted; at most the front one is dropped, and never the only one; a pair at `W + 10` is appended exactly when no pipe is left or the newest one passed the threshold |
| `GameRules.StepReward` | app/src/main/java/com/alihan/rlproject/GameState.kt:83-166 | the reward is 0.1, 1.0 or -1.0; -1 exactly on a terminal frame; 1.0 exactly when the frame is not terminal and some pipe is being passed |
| `GameRules.StepScore` | app/src/main/java/com/alihan/rlproject/GameState.kt:93-147 | a non-terminal frame adds the passed count to the score, so the score never decreases; a terminal frame leaves a reset world with score 0 and two pipe pairs |
| `GameRules.StepTerminal` | app/src/main/java/com/alihan/rlproject/GameState.kt:142-164 | a frame is terminal exactly when the moved player touches the ground line or intersects an upper or lower pipe of some moved pair |
| `GameRules.StepKinematics` | app/src/main/java/com/alihan/rlproject/GameState.kt:86-118 | an accepted flap sets the velocity to -9 and skips gravity, otherwise gravity adds 1 below the maximum 10; a surviving player is on screen, above the ground line, with the flap flag clear |
| `GameRules.AdvanceKeepsInv` | app/src/main/java/com/alihan/rlproject/GameState.kt:86-140 | the stages before the terminal test keep the invariant |
| `GameRules.StepPreservesInv` | app/src/main/java/com/alihan/rlproject/GameState.kt:79-166 | every frame keeps the invariant, whatever the action and the random draws |
| `GameRules.Run` | app/src/main/java/com/alihan/rlproject/GameState.kt:79-166 | the invariant holds after any sequence of frames |
| `Game.GameState.constructor` | app/src/main/java/com/alihan/rlproject/GameState.kt:7-48 | a new game satisfies the invariant, with zeroed counters, the player centred and two pipes at `W + 100` and `W + 100 + W/2 + pipeWidth/2` |
| `Game.GameState.RandomPipe` | app/src/main/java/com/alihan/rlproject/GameState.kt:168-171 | the gap value lies in `[minY + 100, maxY)` and the x is the one given |
| `Game.GameState.AddPipe` | app/src/main/java/com/alihan/rlproject/GameState.kt:69-77 | appends an upper pipe with top at `gapY - 100 - pipeHeight` and a lower pipe with top at `gapY`, both at x |
| `Game.GameState.Reset` | app/src/main/java/com/alihan/rlproject/GameState.kt:50-67 | the fields become `ResetWorld` of the old fields for the two in-range gap values drawn |
| `Game.GameState.ScorePipes` | app/src/main/java/com/alihan/rlproject/GameState.kt:93-100 | the score grows by the passed count; the reward is 1.0 when something was passed, 0.1 otherwise |
| `Game.GameState.ShiftAllPipes` | app/src/main/java/com/alihan/rlproject/GameState.kt:120-123 | both lists become their shifted versions |
| `Game.GameState.AdvanceCountersStep` | app/src/main/java/com/alihan/rlproject/GameState.kt:102-108 | the fields become `AdvanceCounters` of the old fields |
| `Game.GameState.ApplyGravity` | app/src/main/java/com/alihan/rlproject/GameState.kt:110-118 | the fields become `Fall` of the old fields |
| `Game.GameState.MoveAllPipes` | app/src/main/java/com/alihan/rlproject/GameState.kt:120-140 | the fields become `MovePipes` of the old fields for an in-range spawn gap |
| `Game.GameState.HitsPipe` | app/src/main/java/com/alihan/rlproject/GameState.kt:149-164 | true exactly when the player's box intersects the upper or the lower pipe of some pair |
| `Game.GameState.AdvanceFrame` | app/src/main/java/com/alihan/rlproject/GameState.kt:83-140 | the fields become `Advance` of the old fields, and the reward is the pass or alive reward of the old pipes |
| `Game.GameState.FrameStep` | app/src/main/java/com/alihan/rlproject/GameState.kt:79-166 | the new fields, reward and terminal flag are `Step` of the old fields for the draws made, and the invariant is kept |
| `Observation.Red` | app/src/main/java/com/alihan/rlproject/DQNModel.kt:59 | `(p shr 16) and 0xff` is a byte, 0..255 |
| `Observation.RedOfArgb` | app/src/main/java/com/alihan/rlproject/DQNModel.kt:57-62 | the shift-and-mask recovers the red byte of any ARGB pixel, whatever its alpha and sign |
| `Observation.ThresholdOfArgb` | app/src/main/java/com/alihan/rlproject/DQNModel.kt:57-62 | a pixel becomes 255 exactly when its red byte is at least 2, and 0 otherwise |
| `Observation.Appended` | app/src/main/java/com/alihan/rlproject/DQNModel.kt:66-69 | the deque holds one more frame, at most four, and is exactly the newest that many of the old frames followed by the new one |
| `Observation.Fed` | app/src/main/java/com/alihan/rlproject/DQNModel.kt:84-91 | after any frames the deque holds at most four frames, and exactly four once one frame was fed |
| `Observation.FedIsWindow` | app/src/main/java/com/alihan/rlproject/DQNModel.kt:84-91 | after any frames the deque is the last four, oldest first, the first frame standing in for missing ones |
| `Observation.FedOne` | app/src/main/java/com/alihan/rlproject/DQNModel.kt:87-88 | the first frame fills the deque with four copies of itself |
| `Observation.FedFive` | app/src/main/java/com/alihan/rlproject/DQNModel.kt:66-91 | the fifth frame evicts the first |
| `Observation.TensorBlock` | app/src/main/java/com/alihan/rlproject/DQNModel.kt:71-82 | the tensor has 4 * 7056 values and its block c holds the frame of channel c |
| `Observation.ColdStartTensor` | app/src/main/java/com/alihan/rlproject/DQNModel.kt:76-88 | with a single frame held, all four channels are that frame |
| `Observation.FirstMaxUnique` | app/src/main/java/com/alihan/rlproject/DQNModel.kt:97-104 | the first maximal index is unique |
| `Dqn.DQNModel.constructor` | app/src/main/java/com/alihan/rlproject/DQNModel.kt:13-15 | a new model holds no frames |
| `Dqn.DQNModel.Preprocess` | app/src/main/java/com/alihan/rlproject/DQNModel.kt:52-63 | a new array holding, for every pixel, 255 when its red byte exceeds 1 and 0 otherwise |
| `Dqn.DQNModel.AppendFrame` | app/src/main/java/com/alihan/rlproject/DQNModel.kt:66-69 | the deque becomes `Appended` of the old deque, and never holds more than four frames |
| `Dqn.DQNModel.GetInputTensor` | app/src/main/java/com/alihan/rlproject/DQNModel.kt:71-82 | a new array holding the four channels laid out in order, channel c being the c-th oldest frame or the newest one |
| `Dqn.DQNModel.ArgMax` | app/src/main/java/com/alihan/rlproject/DQNModel.kt:97-104 | the result is the first index of a maximal score |
| `Dqn.DQNModel.PredictAction` | app/src/main/java/com/alihan/rlproject/DQNModel.kt:84-106 | the deque becomes the thresholded frame pushed (four copies into an empty deque), and the action is the first best score of the policy on the resulting tensor |

## Left out

- Bitmap scaling, the greyscale colour filter and `getPixels` (DQNModel.kt lines 36-50) are Android drawing calls. `Preprocess` starts from the 84x84 pixel values they produce.
- Loading and running the TorchScript network are foreign calls. The network is the parameter `policy` of `PredictAction`. The model requires it to return at least one score, where the source would throw on `scores[0]`.
- `PredictAction`: does not model NaN scores. Scores are reals, and the arg-max loop's `>` is exact.
- Floating-point arithmetic is not modelled. This covers `playerX`, `groundY`, `minY` and `maxY`, which are parameters of `Config`, and the Float rewards, which are reals.
- `Random` is an arbitrary choice in range, not a seeded generator. `Config.Valid` requires `minY + 100 < maxY`, where `Random.nextInt` would otherwise throw.
- `Config.Valid` also requires positive sizes, and that a pipe scrolling past the spawn threshold does not leave the screen in the same frame. That holds for any screen at least 8 wide. Without it a lone pipe could be removed and `upperPipes.last()` would throw; the model does not cover that exception.
- `FrameStep` requires at least two actions, where the source would throw on `inputActions[1]`.
- The empty `inputActions.sum() != 1` check and the unused `playerMinVelY` have no effect and are not modelled.
- 32-bit wrap-around of `score`, `playerY` and the pipe x values is not modelled. Integers are unbounded; the invariant keeps counters and velocity small, but an endless episode could grow `score` past `Int.MAX_VALUE` in the source.
- Frames are values. `predictAction` pushes the same `FloatArray` four times into an empty deque; since no frame is written after it is pushed, the sharing is not observable, and the model does not track it.
- The game's rendering, input handling, asset loading and helpers (`GameView.kt`, `MainActivity.kt`, `AssetLoader.kt`, `Utils.kt`) are not part of this model.
