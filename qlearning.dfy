/**
 * The tabular learner of pong.py (`QLearning`): a table of action values with one
 * row per paddle-position bucket and one column per action, epsilon-greedy action
 * selection and the one-step Q-learning update. The source's floating-point values
 * are modelled as exact reals.
 */
module QLearning {
  import opened GameParameters

  /**
   * `np.argmax` of a row: the FIRST index at which the row takes its maximum
   * value, so ties go to the lowest index.
   */
  function ArgMax(s: seq<real>): (k: nat)
    requires |s| > 0
    ensures k < |s|
    ensures forall j :: 0 <= j < |s| ==> s[j] <= s[k]
    ensures forall j :: 0 <= j < k ==> s[j] < s[k]
  {
    if |s| == 1 then 0
    else
      var k' := ArgMax(s[..|s| - 1]);
      if s[k'] < s[|s| - 1] then |s| - 1 else k'
  }

  /** `np.max` of a row: a value of the row that no other value exceeds. */
  function MaxValue(s: seq<real>): (m: real)
    requires |s| > 0
    ensures forall j :: 0 <= j < |s| ==> s[j] <= m
    ensures exists j :: 0 <= j < |s| && s[j] == m
  {
    s[ArgMax(s)]
  }

  /** The learner's fixed hyper-parameters: learning rate, discount factor and exploration rate. */
  const Alpha: real := 0.1
  const Gamma: real := 0.9
  const Epsilon: real := 0.2

  /** A Q-table as a value: one row of action values per state. */
  type Table = seq<seq<real>>

  /** Every row of t holds one value per action. */
  predicate WellShaped(t: Table)
  {
    forall i :: 0 <= i < |t| ==> |t[i]| == NumActions
  }

  /** Every value of t is zero. */
  predicate IsZero(t: Table)
  {
    forall i, j :: 0 <= i < |t| && 0 <= j < |t[i]| ==> t[i][j] == 0.0
  }

  /**
   * `choose_action` on the row of the state: when the uniform draw u is below
   * epsilon, the randomly picked action; otherwise the first action of maximal value.
   */
  function SelectAction(row: seq<real>, u: real, pick: int): (a: int)
    requires |row| == NumActions && 0 <= pick < NumActions
    ensures 0 <= a < NumActions
    ensures u < Epsilon ==> a == pick
    ensures Epsilon <= u ==>
      (forall j :: 0 <= j < NumActions ==> row[j] <= row[a]) &&
      (forall j :: 0 <= j < a ==> row[j] < row[a])
  {
    if u < Epsilon then pick else ArgMax(row)
  }

  /**
   * `update_Q_values` on a table value: cell (s, a) becomes the temporal-difference
   * blend of its old value and the discounted best value of row ns.
   */
  function Updated(t: Table, s: int, a: int, reward: real, ns: int): (r: Table)
    requires WellShaped(t) && 0 <= s < |t| && 0 <= a < NumActions && 0 <= ns < |t|
    ensures |r| == |t| && WellShaped(r)
  {
    t[s := t[s][a := (1.0 - Alpha) * t[s][a] + Alpha * (reward + Gamma * MaxValue(t[ns]))]]
  }

  /** An update writes exactly cell (s, a), from the values before it; no other cell changes. */
  lemma UpdatedCells(t: Table, s: int, a: int, reward: real, ns: int)
    requires WellShaped(t) && 0 <= s < |t| && 0 <= a < NumActions && 0 <= ns < |t|
    ensures Updated(t, s, a, reward, ns)[s][a] == (1.0 - Alpha) * t[s][a] + Alpha * (reward + Gamma * MaxValue(t[ns]))
    ensures forall i, j :: 0 <= i < |t| && 0 <= j < NumActions && (i != s || j != a) ==>
      Updated(t, s, a, reward, ns)[i][j] == t[i][j]
  {
  }

  /** With a zero reward, an update of a zero table leaves it zero. */
  lemma UpdatedKeepsZero(t: Table, s: int, a: int, ns: int)
    requires WellShaped(t) && 0 <= s < |t| && 0 <= a < NumActions && 0 <= ns < |t|
    requires IsZero(t)
    ensures IsZero(Updated(t, s, a, 0.0, ns))
  {
    var j :| 0 <= j < |t[ns]| && t[ns][j] == MaxValue(t[ns]);
    assert MaxValue(t[ns]) == 0.0;
    UpdatedCells(t, s, a, 0.0, ns);
  }

  /** One learner: its Q-table, with the hyper-parameters above. */
  class QLearner {
    const Q: array2<real>

    /** The table has one column per action. */
    predicate Valid() {
      Q.Length1 == NumActions
    }

    /** The row of `state`, as a sequence of its three action values. */
    function Row(state: int): (r: seq<real>)
      reads Q
      requires Valid() && 0 <= state < Q.Length0
      ensures |r| == NumActions
      ensures forall j :: 0 <= j < NumActions ==> r[j] == Q[state, j]
    {
      [Q[state, 0], Q[state, 1], Q[state, 2]]
    }

    /** The first n rows of the table, as a value. */
    ghost function Rows(n: nat): (t: Table)
      reads Q
      requires Valid() && n <= Q.Length0
      ensures |t| == n && WellShaped(t)
      ensures forall i :: 0 <= i < n ==> t[i] == Row(i)
    {
      if n == 0 then [] else Rows(n - 1) + [Row(n - 1)]
    }

    /** The whole table as a value. */
    ghost function Table(): (t: Table)
      reads Q
      requires Valid()
      ensures |t| == Q.Length0 && WellShaped(t)
      ensures forall i :: 0 <= i < Q.Length0 ==> t[i] == Row(i)
    {
      Rows(Q.Length0)
    }

    /** Every value of the table is zero. */
    ghost predicate AllZero()
      reads Q
    {
      forall i, j :: 0 <= i < Q.Length0 && 0 <= j < Q.Length1 ==> Q[i, j] == 0.0
    }

    /**
     * `QLearning(height)`: a zero table of `height // 10` rows and 3 columns.
     * A negative height makes numpy raise; that case is excluded here.
     */
    constructor (height: int)
      requires 0 <= height
      ensures Valid() && fresh(Q)
      ensures Q.Length0 == height / BucketSize
      ensures AllZero()
    {
      Q := new real[height / BucketSize, NumActions]((i, j) => 0.0);
    }

    /**
     * `choose_action(state)`. The uniform draw `u` and the random action `pick` that
     * the source takes from its random-number generators are supplied by the caller:
     * when u < epsilon the learner explores and returns `pick`, otherwise it exploits
     * and returns the first action of maximal value in the row of `state`.
     */
    function ChooseAction(state: int, u: real, pick: int): (a: int)
      reads Q
      requires Valid() && 0 <= state < Q.Length0
      requires 0 <= pick < NumActions
      ensures 0 <= a < NumActions
      ensures u < Epsilon ==> a == pick
      ensures Epsilon <= u ==>
        (forall j :: 0 <= j < NumActions ==> Q[state, j] <= Q[state, a]) &&
        (forall j :: 0 <= j < a ==> Q[state, j] < Q[state, a])
    {
      SelectAction(Row(state), u, pick)
    }

    /**
     * `update_Q_values(state, action, reward, new_state)`: overwrites exactly the cell
     * (state, action) with the temporal-difference blend of its old value and the
     * discounted best value of `new_state`, read before the write.
     */
    method UpdateQValues(state: int, action: int, reward: real, newState: int)
      requires Valid()
      requires 0 <= state < Q.Length0 && 0 <= action < NumActions
      requires 0 <= newState < Q.Length0
      modifies Q
      ensures Q[state, action] ==
        (1.0 - Alpha) * old(Q[state, action]) + Alpha * (reward + Gamma * MaxValue(old(Row(newState))))
      ensures forall i, j :: 0 <= i < Q.Length0 && 0 <= j < Q.Length1 && (i != state || j != action) ==>
        Q[i, j] == old(Q[i, j])
      ensures Table() == Updated(old(Table()), state, action, reward, newState)
      ensures old(AllZero()) && reward == 0.0 ==> AllZero()
    {
      ghost var before := Table();
      var best := MaxValue(Row(newState));
      Q[state, action] := (1.0 - Alpha) * Q[state, action] + Alpha * (reward + Gamma * best);
      ghost var after, expected := Table(), Updated(before, state, action, reward, newState);
      UpdatedCells(before, state, action, reward, newState);
      forall i | 0 <= i < Q.Length0
        ensures after[i] == expected[i]
      {
        assert after[i] == Row(i);
      }
    }
  }
}
