/**
 * The fixed configuration held by pong.py's `GameParameters` object.
 * The source builds it once and never changes it, so it is a set of constants here.
 * The frame rate and the colours drive only presentation and are not part of the model.
 */
module GameParameters {

  const Width: int := 600
  const Height: int := 400
  const PaddleWidth: int := 10
  const PaddleHeight: int := 60
  const BallSize: int := 10

  /** Granularity of the paddle-position buckets that index the Q-table. */
  const BucketSize: int := 10

  /** Rows of the Q-table the game builds: `HEIGHT // 10`. */
  const NumStates: int := Height / BucketSize

  /** Columns of the Q-table: the three actions 0, 1 and 2. */
  const NumActions: int := 3

  /** The run loop stops after this many ticks at the latest. */
  const MaxTicks: int := 20000

  /** Ticks per recorded score average. */
  const WindowTicks: int := 10
}
