/** The learning agent: it owns the Q-table and the transition of the step
    before, and on every tick encodes the state, makes sure the table knows
    it, selects an action, learns from the previous transition and rolls
    the transition forward. */
module Agent {
  import opened Domain
  import opened QTable
  import opened Policy

  class LearningAgent {
    var qtable: Table
    /** The state of the latest step (None before the first one). */
    var state: Option<State>
    var prevState: Option<State>
    var prevAction: Option<Move>
    var prevReward: Option<real>

    /** Every entry maps the four actions, and a previous transition, when
        there is one, is complete and its state is in the table, so the
        lookup of the learning step cannot fail. */
    ghost predicate Valid()
      reads this
    {
      && WellFormed(qtable)
      && (prevState.Some? ==> prevState.value in qtable && prevAction.Some? && prevReward.Some?)
    }

    /** The transition held for the next step, if any. */
    function Prev(): Option<Transition>
      reads this
    {
      if prevState.Some? && prevAction.Some? && prevReward.Some? then
        Some(Transition(prevState.value, prevAction.value, prevReward.value))
      else
        None
    }

    /** An agent with an empty table and no previous transition. */
    constructor ()
      ensures Valid()
      ensures qtable == map[] && state == None
      ensures prevState == None && prevAction == None && prevReward == None
    {
      qtable := map[];
      state := None;
      prevState := None;
      prevAction := None;
      prevReward := None;
    }

    /** Start of a trial, as written: only the route planner is told the new
        destination; the table and the previous transition are kept. */
    method Reset()
      requires Valid()
      ensures Valid()
      ensures qtable == old(qtable) && state == old(state)
      ensures prevState == old(prevState) && prevAction == old(prevAction)
      ensures prevReward == old(prevReward)
    {
    }

    /** Start of a trial with the previous transition cleared, so that the
        first step of the trial learns nothing; the table is kept. */
    method ResetForTrial()
      requires Valid()
      modifies this
      ensures Valid()
      ensures qtable == old(qtable) && state == old(state)
      ensures prevState == None && prevAction == None && prevReward == None
      ensures Prev() == None
    {
      prevState := None;
      prevAction := None;
      prevReward := None;
    }

    /** The learning step of a tick that reached `s`: when there is a
        previous transition, its (state, action) value is rewritten from its
        reward and the maximum of `s`; the transition itself is not touched. */
    method LearnPrevious(s: State)
      requires Valid() && s in qtable
      modifies this`qtable
      ensures Valid()
      ensures qtable == if old(Prev()).Some? then Learn(old(qtable), old(Prev()).value, s) else old(qtable)
    {
      if prevState.Some? {
        var ps := prevState.value;
        var qp := qtable[ps][prevAction.value];
        var qMax := MaxValue(qtable[s]);
        qp := qp + Alpha * (prevReward.value + Gamma * qMax - qp);
        qtable := qtable[ps := qtable[ps][prevAction.value := qp]];
      }
    }

    /** One tick. `waypoint` is the planner's suggestion, `inputs` and
        `deadline` what the environment senses, `r` the draw compared with
        Epsilon, `c` the draw of random.choice and `act` the environment's
        reward for an action. Returns the action taken. */
    method Update(waypoint: Move, inputs: Percept, deadline: int, r: real, c: real, act: Move -> real)
      returns (action: Move)
      requires Valid()
      requires 0.0 <= r < 1.0 && 0.0 <= c < 1.0
      modifies this
      ensures Valid()
      ensures state == Some(Encode(waypoint, inputs, deadline))
      ensures action == Select(old(qtable), Encode(waypoint, inputs, deadline), r, c, Epsilon)
      ensures qtable == NextTable(old(qtable), old(Prev()), Encode(waypoint, inputs, deadline))
      ensures prevState == state && prevAction == Some(action) && prevReward == Some(act(action))
    {
      var s := Encode(waypoint, inputs, deadline);
      state := Some(s);

      if s in qtable {
        if r < Epsilon {
          var ties := Ties(qtable[s]);
          action := ties[Pick(c, |ties|)];
        } else {
          action := Moves[Pick(c, |Moves|)];
        }
      } else {
        qtable := qtable[s := InitEntry()];
        action := Moves[Pick(c, |Moves|)];
      }

      var reward := act(action);
      LearnPrevious(s);

      prevState := state;
      prevAction := Some(action);
      prevReward := Some(reward);
    }
  }

  /** A state key used by the trial runs below. */
  function StateA(): State {
    State(Forward, Green, Stay, Stay)
  }

  /** A second, different state key. */
  function StateB(): State {
    State(Left, Red, Forward, Stay)
  }

  /** One two-step trial from a fresh agent: the first step reaches A and
      goes forward for reward 2, the second reaches B and turns left for
      reward 10. Returns the values of (A, forward) and (B, left) after it:
      the first is learned with the maximum of B's new entry,
      15 + 0.8 * (2 + 0.5 * 15 - 15) = 10.6; the second is still 15. */
  method TwoStepTrial() returns (learned: real, untouched: real)
    ensures learned == 10.6 && untouched == 15.0
  {
    var agent := new LearningAgent();
    var a1 := agent.Update(Forward, Percept(Green, Stay, Stay, Right), 20, 0.5, 0.25, _ => 2.0);
    assert a1 == Forward;
    var a2 := agent.Update(Left, Percept(Red, Forward, Stay, Stay), 19, 0.5, 0.5, _ => 10.0);
    assert a2 == Left;
    learned := agent.qtable[StateA()][Forward];
    untouched := agent.qtable[StateB()][Left];
  }

  /** The same two steps with Reset between them, as written: the first
      step of the second trial still learns from the last transition of the
      first, so (A, forward) becomes 10.6. */
  method TrialBoundaryAsWritten() returns (v: real)
    ensures v == 10.6
  {
    var agent := new LearningAgent();
    var a1 := agent.Update(Forward, Percept(Green, Stay, Stay, Right), 20, 0.5, 0.25, _ => 2.0);
    assert a1 == Forward;
    agent.Reset();
    var a2 := agent.Update(Left, Percept(Red, Forward, Stay, Stay), 30, 0.5, 0.5, _ => 10.0);
    v := agent.qtable[StateA()][Forward];
  }

  /** The same two steps with ResetForTrial between them: the first step of
      the second trial changes no existing value, so (A, forward) keeps 15. */
  method TrialBoundaryCorrected() returns (v: real)
    ensures v == 15.0
  {
    var agent := new LearningAgent();
    var a1 := agent.Update(Forward, Percept(Green, Stay, Stay, Right), 20, 0.5, 0.25, _ => 2.0);
    agent.ResetForTrial();
    var a2 := agent.Update(Left, Percept(Red, Forward, Stay, Stay), 30, 0.5, 0.5, _ => 10.0);
    v := agent.qtable[StateA()][Forward];
  }

  /** Any step that carries a previous transition whose target differs from
      the value it holds does change that value: the first step after Reset
      learns from the previous trial unless the transition is cleared. */
  lemma StaleTransitionLearns(q: Table, t: Transition, s: State)
    requires WellFormed(q) && t.state in q
    requires q[t.state][t.action] != t.reward + Gamma * (if s in q then MaxValue(q[s]) else Q0)
    ensures NextTable(q, Some(t), s)[t.state][t.action] != q[t.state][t.action]
  {
  }
}
