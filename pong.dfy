/**
 * The game logic of pong.py's `PongGame`: discretising a paddle position into a
 * Q-table row, one physics tick, and the run loop that drives the shared learner
 * for both agents, advances the physics and records score averages. Drawing, the
 * window, the clock and plotting are not part of the model; random draws and the
 * window-close event are inputs.
 */
module Pong {
  import opened Builtins
  import opened GameParameters
  import opened Rects
  import opened QLearning
  import opened ScoreStats

  /**
   * `get_state(paddle_y)`: the bucket `paddle_y // 10`, clamped to a row of the
   * Q-table. Python's `//` is floor division, which for the positive divisor 10 is
   * Dafny's `/`.
   */
  function GetState(y: int): (r: int)
    ensures 0 <= r < NumStates
    ensures 0 <= y < Height ==> BucketSize * r <= y < BucketSize * r + BucketSize
    ensures y < 0 ==> r == 0
    ensures Height <= y ==> r == NumStates - 1
  {
    Min(Max(y / BucketSize, 0), NumStates - 1)
  }

  /** A higher paddle position never maps to a lower bucket. */
  lemma GetStateMonotone(y1: int, y2: int)
    requires y1 <= y2
    ensures GetState(y1) <= GetState(y2)
  {
    var q1, q2 := y1 / BucketSize, y2 / BucketSize;
    assert BucketSize * q1 <= y1 && y2 < BucketSize * q2 + BucketSize;
    assert q1 <= q2;
  }

  /** The state of one game: the rectangles, the four speeds and the two scores. */
  datatype World = World(
    ball: Rect, paddle1: Rect, paddle2: Rect,
    ballSpeedX: int, ballSpeedY: int,
    paddle1Speed: int, paddle2Speed: int,
    agent1Score: int, agent2Score: int)

  /** A paddle's `y` after the move is clamped into the arena: `max(min(y, HEIGHT - PADDLE_HEIGHT), 0)`. */
  function ClampPaddleY(y: int): int
  {
    Max(Min(y, Height - PaddleHeight), 0)
  }

  /** v reversed k times, that is v * (-1)^k. */
  function FlipTimes(v: int, k: nat): int
  {
    if k == 0 then v else -FlipTimes(v, k - 1)
  }

  lemma {:induction false} FlipTimesParity(v: int, k: nat)
    ensures FlipTimes(v, k) == if k % 2 == 0 then v else -v
  {
    if k > 0 {
      FlipTimesParity(v, k - 1);
    }
  }

  function Count(b: bool): nat { if b then 1 else 0 }

  /** The ball touches the top or the bottom wall. */
  predicate HitsWall(w: World) { w.ball.Top() <= 0 || w.ball.Bottom() >= Height }

  /** The ball is at or past the left edge: agent 2 scores. */
  predicate PastLeft(w: World) { w.ball.Left() <= 0 }

  /** The ball is at or past the right edge: agent 1 scores. */
  predicate PastRight(w: World) { w.ball.Right() >= Width }

  /** The ball overlaps either paddle. */
  predicate HitsPaddle(w: World) { CollideRect(w.ball, w.paddle1) || CollideRect(w.ball, w.paddle2) }

  /** How many of the three conditions that reverse the horizontal speed hold in w. */
  function HorizontalEvents(w: World): nat
  {
    Count(PastLeft(w)) + Count(PastRight(w)) + Count(HitsPaddle(w))
  }

  /** The rectangles after the ball and the paddles have moved by their speeds and the paddles have been clamped. */
  function Move(w: World): World
  {
    w.(ball := w.ball.(x := w.ball.x + w.ballSpeedX, y := w.ball.y + w.ballSpeedY),
       paddle1 := w.paddle1.(y := ClampPaddleY(w.paddle1.y + w.paddle1Speed)),
       paddle2 := w.paddle2.(y := ClampPaddleY(w.paddle2.y + w.paddle2Speed)))
  }

  /**
   * The events of a tick, tested on the moved rectangles: each one multiplies the
   * speed it concerns by -1 (a speed reversed k times is multiplied by (-1)^k), and
   * a ball at or past an edge gives the opposite agent a point.
   */
  function Resolve(m: World): World
  {
    m.(ballSpeedX := FlipTimes(m.ballSpeedX, HorizontalEvents(m)),
       ballSpeedY := FlipTimes(m.ballSpeedY, Count(HitsWall(m))),
       agent1Score := m.agent1Score + Count(PastRight(m)),
       agent2Score := m.agent2Score + Count(PastLeft(m)))
  }

  /** One call of `update_game_elements`, as a function of the state on entry: move, then resolve. */
  function Tick(w: World): World
  {
    Resolve(Move(w))
  }

  /**
   * What one tick does, stated on its result r: the ball moves by exactly the speed
   * held on entry; the paddles move by theirs and end inside the arena; nothing else
   * about the rectangles or the paddle speeds changes; each ball speed keeps its
   * magnitude; the vertical speed is reversed exactly when the moved ball touches a
   * wall; the horizontal speed is reversed once per event among left edge, right edge
   * and paddle contact, so that two events cancel; each score rises by at most one,
   * and by one exactly when the moved ball is at or past the far edge.
   */
  lemma TickProperties(w: World, r: World)
    requires r == Tick(w)
    ensures r.ball.x == w.ball.x + w.ballSpeedX && r.ball.y == w.ball.y + w.ballSpeedY
    ensures r.ball.w == w.ball.w && r.ball.h == w.ball.h
    ensures r.paddle1.x == w.paddle1.x && r.paddle1.w == w.paddle1.w && r.paddle1.h == w.paddle1.h
    ensures r.paddle2.x == w.paddle2.x && r.paddle2.w == w.paddle2.w && r.paddle2.h == w.paddle2.h
    ensures 0 <= r.paddle1.y <= Height - PaddleHeight && 0 <= r.paddle2.y <= Height - PaddleHeight
    ensures 0 <= w.paddle1.y + w.paddle1Speed <= Height - PaddleHeight ==>
      r.paddle1.y == w.paddle1.y + w.paddle1Speed
    ensures 0 <= w.paddle2.y + w.paddle2Speed <= Height - PaddleHeight ==>
      r.paddle2.y == w.paddle2.y + w.paddle2Speed
    ensures r.paddle1Speed == w.paddle1Speed && r.paddle2Speed == w.paddle2Speed
    ensures Abs(r.ballSpeedX) == Abs(w.ballSpeedX) && Abs(r.ballSpeedY) == Abs(w.ballSpeedY)
    ensures r.ballSpeedY == if HitsWall(r) then -w.ballSpeedY else w.ballSpeedY
    ensures r.ballSpeedX == if HorizontalEvents(r) % 2 == 1 then -w.ballSpeedX else w.ballSpeedX
    ensures r.agent1Score == w.agent1Score + 1 <==> PastRight(r)
    ensures r.agent2Score == w.agent2Score + 1 <==> PastLeft(r)
    ensures w.agent1Score <= r.agent1Score <= w.agent1Score + 1
    ensures w.agent2Score <= r.agent2Score <= w.agent2Score + 1
  {
    FlipTimesParity(w.ballSpeedX, HorizontalEvents(Move(w)));
    FlipTimesParity(w.ballSpeedY, Count(HitsWall(Move(w))));
  }

  /**
   * The geometry the game keeps: paddles at their fixed columns inside the arena,
   * and every rectangle with its configured size.
   */
  predicate GameInv(w: World)
  {
    w.ball.w == BallSize && w.ball.h == BallSize &&
    w.paddle1.x == 50 && w.paddle2.x == Width - 50 - PaddleWidth &&
    w.paddle1.w == PaddleWidth && w.paddle1.h == PaddleHeight &&
    w.paddle2.w == PaddleWidth && w.paddle2.h == PaddleHeight &&
    0 <= w.paddle1.y <= Height - PaddleHeight && 0 <= w.paddle2.y <= Height - PaddleHeight
  }

  /** A tick keeps the geometry, whatever the speeds. */
  lemma TickPreservesGameInv(w: World)
    requires GameInv(w)
    ensures GameInv(Tick(w))
  {
    TickProperties(w, Tick(w));
  }

  /**
   * With the game's geometry, the left edge, the right edge and the two paddles are
   * so far apart that at most one horizontal event happens in a tick: the horizontal
   * speed is reversed exactly when one of them happens, and flips never cancel.
   */
  lemma HorizontalEventsExclusive(w: World)
    requires GameInv(w)
    ensures HorizontalEvents(Tick(w)) <= 1
    ensures Tick(w).ballSpeedX == if HorizontalEvents(Tick(w)) == 1 then -w.ballSpeedX else w.ballSpeedX
  {
    var r := Tick(w);
    TickProperties(w, r);
    if PastLeft(r) {
      assert r.ball.x + BallSize <= r.paddle1.x;
      assert !HitsPaddle(r);
    }
    if PastRight(r) {
      assert r.paddle2.x + PaddleWidth < r.ball.x;
      assert !HitsPaddle(r);
    }
  }

  /** The per-tick random inputs of the run loop, in the order the source draws them. */
  datatype Draw = Draw(
    quit: bool,                  // a window-close event is pending at the start of the tick
    explore1: real, pick1: int,  // agent 1: `random.uniform(0, 1)` and `np.random.choice([0, 1, 2])`
    explore2: real, pick2: int,  // agent 2: the same draws
    speed1: int, speed2: int)    // `random.choice([-5, 5, 0])` for each paddle
  {
    predicate WellFormed() {
      0 <= pick1 < NumActions && 0 <= pick2 < NumActions &&
      speed1 in {-5, 5, 0} && speed2 in {-5, 5, 0}
    }
  }

  /** None of the first n draws carries a window-close event. */
  ghost predicate NoQuitBefore(draws: seq<Draw>, n: int)
    decreases n
  {
    n <= 0 || (n <= |draws| && !draws[n - 1].quit && NoQuitBefore(draws, n - 1))
  }

  lemma {:induction false} NoQuitBeforeAll(draws: seq<Draw>, n: int)
    requires n <= |draws| && NoQuitBefore(draws, n)
    ensures forall i :: 0 <= i < n ==> !draws[i].quit
    decreases n
  {
    if n > 0 {
      NoQuitBeforeAll(draws, n - 1);
    }
  }

  /** The speeds the run loop draws for tick i replace the paddle speeds before the physics. */
  function WithSpeeds(w: World, d: Draw): World
  {
    w.(paddle1Speed := d.speed1, paddle2Speed := d.speed2)
  }

  /**
   * The state after the first n ticks of a run that starts in start: each tick runs
   * the physics with the paddle speeds drawn for it.
   */
  function Run(start: World, draws: seq<Draw>, n: nat): World
    requires n <= |draws|
  {
    if n == 0 then start else Tick(WithSpeeds(Run(start, draws, n - 1), draws[n - 1]))
  }

  /** The two agents: agent 1 plays the left paddle, agent 2 the right one. */
  datatype Agent = Agent1 | Agent2

  /** The score of an agent in a state. */
  function Score(w: World, agent: Agent): int
  {
    match agent
    case Agent1 => w.agent1Score
    case Agent2 => w.agent2Score
  }

  /** The score of an agent after each of the first n ticks of a run. */
  function ScoreHistory(start: World, draws: seq<Draw>, n: nat, agent: Agent): (h: seq<int>)
    requires n <= |draws|
    ensures |h| == n
  {
    if n == 0 then [] else ScoreHistory(start, draws, n - 1, agent) + [Score(Run(start, draws, n), agent)]
  }

  /** Entry i of an agent's score history is its score after tick i + 1. */
  lemma {:induction false} HistoryAt(start: World, draws: seq<Draw>, n: nat, agent: Agent, i: nat)
    requires n <= |draws| && i < n
    ensures ScoreHistory(start, draws, n, agent)[i] == Score(Run(start, draws, i + 1), agent)
  {
    if i < n - 1 {
      HistoryAt(start, draws, n - 1, agent, i);
    }
  }

  /**
   * One agent's learning step in a tick of the run loop, on a table value: take the
   * bucket of the paddle, choose an action for it, and update that cell with reward 0
   * towards the bucket the paddle reaches with its current speed.
   */
  function LearnStep(t: Table, paddleY: int, paddleSpeed: int, u: real, pick: int): (r: Table)
    requires |t| == NumStates && WellShaped(t) && 0 <= pick < NumActions
    ensures |r| == NumStates && WellShaped(r)
  {
    var state := GetState(paddleY);
    Updated(t, state, SelectAction(t[state], u, pick), 0.0, GetState(paddleY + paddleSpeed))
  }

  /** On a zero table a learning step changes nothing: every update writes 0 over 0. */
  lemma LearnStepInert(t: Table, paddleY: int, paddleSpeed: int, u: real, pick: int)
    requires |t| == NumStates && WellShaped(t) && 0 <= pick < NumActions
    requires IsZero(t)
    ensures LearnStep(t, paddleY, paddleSpeed, u, pick) == t
  {
    var state := GetState(paddleY);
    var r := LearnStep(t, paddleY, paddleSpeed, u, pick);
    UpdatedKeepsZero(t, state, SelectAction(t[state], u, pick), GetState(paddleY + paddleSpeed));
    forall i | 0 <= i < |t|
      ensures r[i] == t[i]
    {
      assert |r[i]| == |t[i]| == NumActions;
    }
  }

  /** Over a run, each score never decreases and rises by at most one per tick. */
  lemma {:induction false} RunScoresMonotone(start: World, draws: seq<Draw>, i: nat, j: nat)
    requires i <= j <= |draws|
    ensures Run(start, draws, i).agent1Score <= Run(start, draws, j).agent1Score
                                             <= Run(start, draws, i).agent1Score + (j - i)
    ensures Run(start, draws, i).agent2Score <= Run(start, draws, j).agent2Score
                                             <= Run(start, draws, i).agent2Score + (j - i)
  {
    if i < j {
      RunScoresMonotone(start, draws, i, j - 1);
      TickProperties(WithSpeeds(Run(start, draws, j - 1), draws[j - 1]), Run(start, draws, j));
    }
  }

  /** A run that starts with the game's geometry keeps it after every tick. */
  lemma {:induction false} RunKeepsGameInv(start: World, draws: seq<Draw>, n: nat)
    requires GameInv(start) && n <= |draws|
    ensures GameInv(Run(start, draws, n))
  {
    if n > 0 {
      RunKeepsGameInv(start, draws, n - 1);
      TickPreservesGameInv(WithSpeeds(Run(start, draws, n - 1), draws[n - 1]));
    }
  }

  /** A game: its rectangles, speeds and scores, and the learner both agents share. */
  class PongGame {
    var ball: Rect
    var paddle1: Rect
    var paddle2: Rect
    var ballSpeedX: int
    var ballSpeedY: int
    var paddle1Speed: int
    var paddle2Speed: int
    var agent1Score: int
    var agent2Score: int
    const learner: QLearner

    ghost function State(): World
      reads this
    {
      World(ball, paddle1, paddle2, ballSpeedX, ballSpeedY, paddle1Speed, paddle2Speed, agent1Score, agent2Score)
    }

    /** The shared learner's table has a row for every bucket `GetState` can return. */
    predicate Valid()
    {
      learner.Valid() && learner.Q.Length0 == NumStates
    }

    /**
     * `PongGame(game_params, q_learning_params)`: ball and paddles centred, scores
     * zero, paddle speeds 3 and ball speeds 3 in the directions `dirX` and `dirY`
     * drawn by the source with `random.choice((1, -1))`.
     */
    constructor (learner: QLearner, dirX: int, dirY: int)
      requires learner.Valid() && learner.Q.Length0 == NumStates
      requires dirX == 1 || dirX == -1
      requires dirY == 1 || dirY == -1
      ensures Valid() && this.learner == learner
      ensures State() == World(
        Rect(Width / 2 - BallSize / 2, Height / 2 - BallSize / 2, BallSize, BallSize),
        Rect(50, Height / 2 - PaddleHeight / 2, PaddleWidth, PaddleHeight),
        Rect(Width - 50 - PaddleWidth, Height / 2 - PaddleHeight / 2, PaddleWidth, PaddleHeight),
        3 * dirX, 3 * dirY, 3, 3, 0, 0)
      ensures GameInv(State())
    {
      this.learner := learner;
      agent1Score, agent2Score := 0, 0;
      ball := Rect(Width / 2 - BallSize / 2, Height / 2 - BallSize / 2, BallSize, BallSize);
      paddle1 := Rect(50, Height / 2 - PaddleHeight / 2, PaddleWidth, PaddleHeight);
      paddle2 := Rect(Width - 50 - PaddleWidth, Height / 2 - PaddleHeight / 2, PaddleWidth, PaddleHeight);
      ballSpeedX, ballSpeedY := 3 * dirX, 3 * dirY;
      paddle1Speed, paddle2Speed := 3, 3;
    }

    /** `update_game_elements`: one physics tick, in the source's order. */
    method UpdateGameElements()
      modifies this
      ensures State() == Tick(old(State()))
    {
      MoveElements();
      ResolveEvents();
    }

    /** The first half of `update_game_elements`: move the ball and the paddles, clamp the paddles. */
    method MoveElements()
      modifies this
      ensures State() == Move(old(State()))
    {
      ball := ball.(x := ball.x + ballSpeedX);
      ball := ball.(y := ball.y + ballSpeedY);

      paddle1 := paddle1.(y := paddle1.y + paddle1Speed);
      paddle2 := paddle2.(y := paddle2.y + paddle2Speed);

      paddle1 := paddle1.(y := Max(Min(paddle1.y, Height - PaddleHeight), 0));
      paddle2 := paddle2.(y := Max(Min(paddle2.y, Height - PaddleHeight), 0));
    }

    /**
     * The second half of `update_game_elements`: the wall, edge and paddle tests on
     * the moved rectangles, in order, each reversing a speed and the edges scoring.
     */
    method ResolveEvents()
      modifies this
      ensures State() == Resolve(old(State()))
    {
      ghost var flips: nat := 0;
      if ball.Top() <= 0 || ball.Bottom() >= Height {
        ballSpeedY := ballSpeedY * -1;
      }
      assert ballSpeedY == FlipTimes(old(ballSpeedY), Count(HitsWall(old(State()))));
      if ball.Left() <= 0 {
        agent2Score := agent2Score + 1;
        ballSpeedX := ballSpeedX * -1;
        flips := flips + 1;
      }
      assert ballSpeedX == FlipTimes(old(ballSpeedX), flips);
      if ball.Right() >= Width {
        agent1Score := agent1Score + 1;
        ballSpeedX := ballSpeedX * -1;
        flips := flips + 1;
      }
      assert ballSpeedX == FlipTimes(old(ballSpeedX), flips);

      if CollideRect(ball, paddle1) || CollideRect(ball, paddle2) {
        ballSpeedX := ballSpeedX * -1;
        flips := flips + 1;
      }
      assert ballSpeedX == FlipTimes(old(ballSpeedX), flips);
      assert flips == HorizontalEvents(old(State()));
      assert agent1Score == old(agent1Score) + Count(PastRight(old(State())));
      assert agent2Score == old(agent2Score) + Count(PastLeft(old(State())));
    }

    /**
     * One agent's learning step in a tick of `run_game`: take the bucket of the paddle,
     * choose an action for it, and update the shared table with reward 0 towards the
     * bucket the paddle reaches with its current speed.
     */
    method AgentLearns(paddleY: int, paddleSpeed: int, u: real, pick: int)
      requires Valid() && 0 <= pick < NumActions
      modifies learner.Q
      ensures learner.Table() == LearnStep(old(learner.Table()), paddleY, paddleSpeed, u, pick)
      ensures old(learner.AllZero()) ==> learner.AllZero()
    {
      var state := GetState(paddleY);
      var action := learner.ChooseAction(state, u, pick);
      var reward := 0.0;
      var newState := GetState(paddleY + paddleSpeed);
      assert learner.Table()[state] == learner.Row(state);
      learner.UpdateQValues(state, action, reward, newState);
    }

    /**
     * One tick of `run_game` before its statistics: agent 1's and then agent 2's
     * learning step, then new paddle speeds and the physics. The chosen actions are not
     * used for anything else: the paddles move by the drawn speeds. Of the table it
     * states only that a zero table stays zero, which is all the game ever holds
     * (`LearnStepInert`); the update itself is the contract of `AgentLearns`.
     */
    method PlayTick(draw: Draw)
      requires Valid() && draw.WellFormed()
      modifies this, learner.Q
      ensures State() == Tick(WithSpeeds(old(State()), draw))
      ensures old(learner.AllZero()) ==> learner.AllZero()
    {
      AgentLearns(paddle1.y, paddle1Speed, draw.explore1, draw.pick1);
      AgentLearns(paddle2.y, paddle2Speed, draw.explore2, draw.pick2);

      paddle1Speed := draw.speed1;
      paddle2Speed := draw.speed2;

      UpdateGameElements();
    }

    /**
     * The body of `run_game` without its drawing, clock and plotting. Tick number i
     * takes its random inputs from draws[i]; the loop ends after a tick that saw a
     * window-close event, or after MaxTicks ticks. Returned with the averages is, as a
     * ghost value, the number of ticks run. The final state is the run of that many
     * ticks from the initial one, and the averages are those of its score histories.
     */
    method RunGame(draws: seq<Draw>) returns (averages: seq<real>, ghost ticks: nat)
      requires Valid()
      requires MaxTicks <= |draws|
      requires forall i :: 0 <= i < |draws| ==> draws[i].WellFormed()
      modifies this, learner.Q
      ensures 0 < ticks <= MaxTicks
      ensures forall i :: 0 <= i < ticks - 1 ==> !draws[i].quit
      ensures ticks == MaxTicks || draws[ticks - 1].quit
      ensures State() == Run(old(State()), draws, ticks)
      ensures averages == WindowAverages(ScoreHistory(old(State()), draws, ticks, Agent1),
                                         ScoreHistory(old(State()), draws, ticks, Agent2))
      ensures |averages| == ticks / WindowTicks
      ensures old(learner.AllZero()) ==> learner.AllZero()
    {
      var running := true;
      var episodeCount := 0;
      var sumScoreAgent1 := 0;
      var sumScoreAgent2 := 0;
      averages := [];

      while running && episodeCount < MaxTicks
        invariant 0 <= episodeCount <= MaxTicks
        invariant running ==> NoQuitBefore(draws, episodeCount)
        invariant !running ==> 0 < episodeCount && draws[episodeCount - 1].quit && NoQuitBefore(draws, episodeCount - 1)
        invariant State() == Run(old(State()), draws, episodeCount)
        invariant StatsInv(ScoreHistory(old(State()), draws, episodeCount, Agent1),
                           ScoreHistory(old(State()), draws, episodeCount, Agent2),
                           averages, sumScoreAgent1, sumScoreAgent2)
        invariant old(learner.AllZero()) ==> learner.AllZero()
        decreases MaxTicks - episodeCount
      {
        var draw := draws[episodeCount];
        if draw.quit {
          running := false;
        }

        PlayTick(draw);
        assert State() == Run(old(State()), draws, episodeCount + 1);

        ghost var h1 := ScoreHistory(old(State()), draws, episodeCount, Agent1);
        ghost var h2 := ScoreHistory(old(State()), draws, episodeCount, Agent2);
        assert ScoreHistory(old(State()), draws, episodeCount + 1, Agent1) == h1 + [agent1Score];
        assert ScoreHistory(old(State()), draws, episodeCount + 1, Agent2) == h2 + [agent2Score];
        episodeCount, sumScoreAgent1, sumScoreAgent2, averages :=
          RecordScores(episodeCount, sumScoreAgent1, sumScoreAgent2, averages, agent1Score, agent2Score, h1, h2);
      }
      ticks := episodeCount;
      NoQuitBeforeAll(draws, if running then ticks else ticks - 1);
      StatsAverages(ScoreHistory(old(State()), draws, ticks, Agent1), ScoreHistory(old(State()), draws, ticks, Agent2),
                    averages, sumScoreAgent1, sumScoreAgent2);
    }
  }
}
