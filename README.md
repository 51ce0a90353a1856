# Pong with tabular Q-learning: a verified model of the game logic

`pong.py` runs a two-paddle Pong game. Each paddle has an agent that consults a
tabular Q-learner (one table shared by both agents). The table has one row per
10-pixel bucket of paddle height and one column per action. Every tick, for each
agent in turn, the game:

- discretises the paddle's position;
- lets the learner choose an action epsilon-greedily;
- applies the one-step Q-learning update with reward 0 towards the bucket the
  paddle reaches with its current speed.

It then draws fresh paddle speeds, runs one tick of the physics and adds both
scores to running sums. Every ten ticks it records the sums' total divided by 20.

The project models that logic in Dafny:

- `builtins.dfy` (`Builtins`): Python's integer `min`, `max` and `abs`.
- `game_parameters.dfy` (`GameParameters`): the arena and object sizes, the table
  shape, the 20000-tick budget and the ten-tick window.
- `rects.dfy` (`Rects`): the integer rectangle of pygame and its `colliderect`.
- `qlearning.dfy` (`QLearning`): `class QLearner` over an `array2<real>` table.
  Its constructor builds the zero table. `ChooseAction` is epsilon-greedy with
  first-index `argmax`. `UpdateQValues` writes one cell in place.
- `score_stats.dfy` (`ScoreStats`): the ten-tick window averages as a function of
  the score histories, the invariant the run loop's accumulators keep, and the
  method that performs the end-of-tick bookkeeping.
- `pong.dfy` (`Pong`):
  - `GetState`;
  - one physics tick as a pure function `Tick` over the value `World`, with its
    properties proved;
  - the run of n ticks (`Run`);
  - `class PongGame`, whose methods update its fields in place and are proved
    equal to those functions. Its fields are the rectangles, the speeds and the
    scores, plus the shared learner.

How the model maps the source:

- Python's `//` by 10 is floor division. For a positive divisor this is Dafny's
  `/`.
- The Q-values and the `/ 20` averages are exact reals.
- The random draws of each tick are a caller-supplied `Draw`:
  - the exploration coin and the random action of each agent;
  - the two paddle speeds;
  - whether a window-close event is pending.
- A window-close event only clears `running`, so the tick in which it is seen
  still runs in full, statistics included. The model does the same.
- A fail-fast check would reject every out-of-range index. numpy raises for a row
  index that is too large, but silently wraps a negative one. The model requires
  valid indices of its callers. `GetState` proves the game never passes anything
  else.
- The learning step is inert in this program. The table starts at zero
  (pong.py:17, 155) and every reward is 0 (pong.py:113, 119), so each update
  writes 0 over 0 (`LearnStepInert`). The exact update of one agent's step is the
  contract of `AgentLearns`. `PlayTick` and `RunGame` state of the table that a
  zero table stays zero, which is its exact value throughout the run.

## Model

| member | source | states |
|---|---|---|
| `Pong.GetState` | pong.py:59-60 | The bucket is always a row of the `HEIGHT // 10`-row table, even for positions past either edge. For `0 <= y < HEIGHT` it is exactly `y // 10`. Below 0 it is row 0, and at or past `HEIGHT` it is the last row. |
| `Pong.GetStateMonotone` | pong.py:59-60 | A higher paddle position never maps to a lower bucket. |
| `Rects.CollideRectIffSharedPixel` | pong.py:81 | For rectangles of positive size, the assumed `colliderect` (strict overlap on both axes) holds exactly when the two rectangles share a pixel. |
| `QLearning.ArgMax` | pong.py:26 | `np.argmax` of a row: a valid index whose value is at least every value of the row and strictly greater than every value before it, so ties go to the lowest index. |
| `QLearning.MaxValue` | pong.py:29 | `np.max` of a row: an upper bound of the row that the row attains. |
| `QLearning.QLearner.constructor` | pong.py:16-20 | The table has `height // 10` rows and 3 columns, and every value is 0. |
| `QLearning.QLearner.ChooseAction` | pong.py:22-26 | The action is always 0, 1 or 2. When the coin is below epsilon (0.2), it is the randomly picked action. Otherwise it is the first index of the maximum of the row. |
| `QLearning.SelectAction` | pong.py:22-26 | `choose_action` on a row: the action is always 0, 1 or 2. Below epsilon it is the picked action. Otherwise no action has a greater value and every earlier action has a smaller one. |
| `QLearning.Updated` | pong.py:28-29 | `update_Q_values` on a table value keeps the table's shape: as many rows, each with one value per action. |
| `QLearning.UpdatedCells` | pong.py:28-29 | The update writes cell (s, a) as `(1 - alpha) * Q[s, a] + alpha * (reward + gamma * max Q[ns])` from the old values, and no other cell changes. |
| `QLearning.UpdatedKeepsZero` | pong.py:28-29 | With reward 0, an update of a zero table leaves it zero. |
| `QLearning.QLearner.UpdateQValues` | pong.py:28-29 | Cell (state, action) becomes `(1 - alpha) * Q[state, action] + alpha * (reward + gamma * max Q[new_state])`, with the old values. Every other cell is unchanged. The table after the call is `Updated` of the table before it. A table of zeros stays zero under a zero reward. |
| `ScoreStats.WindowAverages` | pong.py:132-141 | For per-tick score histories, there is one value per complete ten-tick window, `n / 10` of them for n ticks. Value i is the sum of both agents' scores over ticks `10i .. 10i+9` divided by 20. |
| `ScoreStats.StatsAccumulate` | pong.py:132-136 | A tick that does not complete a window adds both scores to the running sums, records nothing and keeps the accumulator invariant. |
| `ScoreStats.StatsRecord` | pong.py:132-141 | A tick that completes a window appends `(sum1 + sum2) / 20` to the averages and resets both sums to 0. This keeps the invariant: the averages are those of the complete windows, and the sums are over the ticks of the window in progress, so they are zero at every multiple of ten. |
| `ScoreStats.StatsAverages` | pong.py:133-141 | The accumulated averages are exactly the window averages of the score histories. |
| `ScoreStats.RecordScores` | pong.py:132-141 | The end-of-tick bookkeeping counts the tick. It takes the accumulators to the state the invariant prescribes for the histories extended by the current scores. |
| `Pong.TickProperties` | pong.py:62-82 | After a tick, the ball has moved by exactly the speed held on entry. The paddles end in `[0, HEIGHT - PADDLE_HEIGHT]`, and at the unclamped position when it is in range. No x, width, height or paddle speed changes. Each ball speed keeps its magnitude. The vertical speed flips exactly when the moved ball touches a wall. The horizontal speed is multiplied by `(-1)^k` for k events among left edge, right edge and paddle overlap. Each score rises by 0 or 1, by 1 exactly when the moved ball is at or past the far edge. |
| `Pong.TickPreservesGameInv` | pong.py:66-70 | A tick keeps the geometry: paddle columns, every rectangle's size, and paddles inside the arena. |
| `Pong.HorizontalEventsExclusive` | pong.py:74-82 | With the game's geometry, at most one of the three horizontal events happens in a tick. So the horizontal speed flips exactly when one happens, and the flips never cancel. |
| `Pong.FlipTimesParity` | pong.py:73-82 | A speed reversed k times is the speed times `(-1)^k`. |
| `Pong.NoQuitBeforeAll` | pong.py:105-109 | When no window-close event occurs in the first n ticks, none of those ticks' draws carries one. |
| `Pong.ScoreHistory` | pong.py:132-133 | The history of an agent's score over a run has one entry per tick. |
| `Pong.HistoryAt` | pong.py:132-133 | Entry i of each score history is that agent's score after tick i + 1 of the run. |
| `Pong.RunScoresMonotone` | pong.py:74-79 | Over a run, neither score ever decreases, and each rises by at most one per tick. |
| `Pong.RunKeepsGameInv` | pong.py:42-49 | A run that starts with the game's geometry keeps it after every tick. |
| `Pong.PongGame.constructor` | pong.py:32-53 | The ball and paddles are centred as in the source, the ball speeds are `3 * direction`, the paddle speeds are 3 and the scores are 0. The geometry invariant holds, and the learner is the one passed in. |
| `Pong.PongGame.UpdateGameElements` | pong.py:62-82 | The fields after the call are `Tick` of the fields before it. |
| `Pong.PongGame.MoveElements` | pong.py:63-70 | The ball moves by its speeds and the paddles by theirs, and the paddles are clamped. |
| `Pong.PongGame.ResolveEvents` | pong.py:72-82 | The wall, edge and paddle tests, in source order, on the moved rectangles: each flips its speed, and the edges score. |
| `Pong.LearnStep` | pong.py:111-121 | One agent's learning step on a table value keeps the table's shape. |
| `Pong.LearnStepInert` | pong.py:111-121 | On a zero table, a learning step returns the table unchanged, whatever the paddle, the coin and the picked action. |
| `Pong.PongGame.AgentLearns` | pong.py:111-115 | The shared table after one agent's step is `LearnStep` of the table before it: the update of the cell for the paddle's bucket and the chosen action, towards the bucket the paddle reaches at its speed, with reward 0. A zero table stays zero. |
| `Pong.PongGame.PlayTick` | pong.py:111-126 | Both agents' learning steps, the new speeds and one tick. The game state becomes `Tick` of the state with the drawn paddle speeds, and a zero table stays zero. |
| `Pong.PongGame.RunGame` | pong.py:98-141 | The loop runs between 1 and 20000 ticks and stops exactly after the first tick with a window-close event, or at the budget. The final state is the run of that many ticks. The averages are the window averages of the run's score histories, `ticks / 10` of them. A zero table stays zero for the whole run. |

## Left out

- Drawing, fonts, the display and the frame clock (pong.py:84-93, 96-97, 106, 127-130): presentation only.
- Polling pygame's event queue (pong.py:107-109): a pending window-close event is the `quit` flag of each tick's `Draw`.
- The plotting and the final print (pong.py:143-151): output only.
- The random-number generators (pong.py:23-24, 50-51, 123-124): their results are inputs, `Draw` for the run loop and `dirX`/`dirY` for the constructor. `RunGame` requires a draw for each of the 20000 possible ticks.
- Floating-point rounding: the Q-values and the window averages are exact reals.
- QLearning.QLearner.constructor: requires a non-negative height. numpy raises for a negative table size, and that error path is not modelled.
- QLearning.QLearner.ChooseAction: requires a state inside the table. numpy wraps a negative row index instead of failing, and the game never produces one.
- QLearning.QLearner.UpdateQValues: requires both states and the action inside the table, for the same reason.
- Pong.PongGame.PlayTick: of the table it states only that a zero table stays zero, not the exact update of each agent's step. The exact update is `AgentLearns`' contract, and `LearnStepInert` shows that it changes nothing on the zero table the game holds.
- Pong.PongGame.RunGame: of the table it states only that a zero table stays zero, for the same reason.
- The `episode_scores_agent1`/`episode_scores_agent2` lists (pong.py:56-57): the source never reads or writes them after creating them.
- `GameParameters.FPS` and the colours (pong.py:11-13): they carry no logic.
- pygame's `Rect` is assumed to behave as `Rects` states for integer rectangles. Aliasing between rectangles is not modelled: each rectangle is a value held in one field.
