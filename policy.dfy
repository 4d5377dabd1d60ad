/** Action selection: with probability Epsilon (sic: the probability of
    exploiting) a uniformly drawn action among those tied at the maximum,
    otherwise a uniformly drawn action among all four; a state seen for the
    first time always gets a uniformly drawn action. */
module Policy {
  import opened Domain
  import opened QTable

  /** Probability of taking the greedy branch. */
  const Epsilon: real := 0.95

  /** The index random.choice takes from a list of length `n` for the
      uniform draw `u` in [0, 1): int(u * n). */
  function Pick(u: real, n: nat): (i: nat)
    requires 0.0 <= u < 1.0 && 0 < n
    ensures i < n
    ensures i as real <= u * n as real < (i + 1) as real
  {
    (u * n as real).Floor
  }

  /** The action chosen in state `s`, with `r` the draw compared against
      `epsilon` and `c` the draw of random.choice. In a known state the
      greedy branch draws among Ties, the other branch among all four
      moves; in a new state `r` is not consulted. */
  function Select(q: Table, s: State, r: real, c: real, epsilon: real): (a: Move)
    requires WellFormed(q) && 0.0 <= c < 1.0
    ensures s in q && r < epsilon ==> q[s][a] == MaxValue(q[s])
    ensures !(s in q && r < epsilon) ==> a == Moves[Pick(c, 4)]
  {
    if s in q then
      if r < epsilon then
        var t := Ties(q[s]);
        t[Pick(c, |t|)]
      else
        Moves[Pick(c, |Moves|)]
    else
      Moves[Pick(c, |Moves|)]
  }

  /** When one action has a strictly larger value than the other three, the
      greedy branch always takes it. */
  lemma GreedyPicksUniqueMax(q: Table, s: State, r: real, c: real, epsilon: real, best: Move)
    requires WellFormed(q) && 0.0 <= c < 1.0
    requires s in q && r < epsilon
    requires forall b :: b in q[s] && b != best ==> q[s][b] < q[s][best]
    ensures Select(q, s, r, c, epsilon) == best
  {
  }

  /** With epsilon = 1 every draw r in [0, 1) takes the greedy branch, so a
      known state with a unique best action always gets that action. */
  lemma EpsilonOneIsGreedy(q: Table, s: State, r: real, c: real, best: Move)
    requires WellFormed(q) && 0.0 <= r < 1.0 && 0.0 <= c < 1.0 && s in q
    requires forall b :: b in q[s] && b != best ==> q[s][b] < q[s][best]
    ensures Select(q, s, r, c, 1.0) == best
  {
    GreedyPicksUniqueMax(q, s, r, c, 1.0, best);
  }

  /** With epsilon = 0 no draw takes the greedy branch: the action is the
      uniform pick among all four moves, whatever the values. */
  lemma EpsilonZeroExplores(q: Table, s: State, r: real, c: real)
    requires WellFormed(q) && 0.0 <= r < 1.0 && 0.0 <= c < 1.0
    ensures Select(q, s, r, c, 0.0) == Moves[Pick(c, 4)]
  {
  }

  /** For a new state the epsilon draw does not matter, and the pick is
      the one the greedy branch would make on the freshly inserted entry,
      where all four actions tie. */
  lemma NewStateIgnoresEpsilonDraw(q: Table, s: State, r1: real, r2: real, c: real, epsilon: real)
    requires WellFormed(q) && 0.0 <= c < 1.0 && s !in q
    ensures Select(q, s, r1, c, epsilon) == Select(q, s, r2, c, epsilon)
    ensures Select(q, s, r1, c, epsilon) == Ties(InitEntry())[Pick(c, 4)]
  {
    TiesOfInitEntry();
  }
}
