# Smartcab learning agent in Dafny

A model of `LearningAgent`, the tabular Q-learning controller of the smartcab
project. On every tick it does five things:

- It builds a state key from the planner's next waypoint, the traffic light, the
  oncoming heading and the left-hand heading.
- It makes sure the Q-table has that state. A new state gets a copy of the
  initial entry, which maps every action to `Q_0 = 15`.
- It selects an action. In a known state it compares a draw `r` with
  `epsilon = 0.95`. When `r < epsilon` it draws among the actions tied at the
  maximum; otherwise it draws among all four actions. In a new state it draws
  among all four actions without drawing `r`.
- It applies the Q-learning update to the previous step's (state, action) pair,
  using that step's reward and the current state's maximum value
  (`alpha = 0.8`, `gamma = 0.5`).
- It rolls the state, action and reward forward as the new previous transition.

Modules:

- `Domain` (`domain.dfy`): moves, lights, percepts, the state key and `Encode`.
- `QTable` (`qtable.dfy`): the table, its constants, `InitEntry`, `Ensure`,
  `MaxValue`, `Ties`, the update rule `Learned` and the whole-step table
  function `NextTable`.
- `Policy` (`policy.dfy`): `Epsilon`, `Pick` (the index `random.choice` takes)
  and `Select`.
- `Agent` (`agent.dfy`): the class `LearningAgent`. It has the table and the
  transition fields. Its `Update` is proved against `Select` and `NextTable`,
  and `Update` calls `LearnPrevious` for the learning step. The module also
  holds trial runs over the class.

The agent's inputs become method parameters:

- the planner's waypoint;
- the sensed percept and deadline;
- the two uniform draws `r` and `c` in [0, 1);
- the environment's reward, as a function `act` from action to reward.

`Pick(c, n)` is `floor(c * n)`. This is how `random.choice` turns one uniform
draw into a list index. Q-values, rewards and the constants are `real`, so the
arithmetic is exact.

## Model

| member | source | states |
|---|---|---|
| `Domain.EncodeSameIff` | projects/smartcab/smartcab/agent.py:31-42 | Two ticks get equal state keys if and only if waypoint, light, oncoming and left headings agree. Deadline and right-hand traffic never matter. |
| `Domain.Encode` | projects/smartcab/smartcab/agent.py:36-42 | The key's four fields are the waypoint, the light, the oncoming heading and the left heading as sensed. `EncodeSameIff` proves that the deadline and right-hand traffic play no part. |
| `QTable.InitEntry` | projects/smartcab/smartcab/agent.py:15-16 | The initial entry maps each of the four actions, and every value is `Q_0 = 15`. |
| `QTable.Ensure` | projects/smartcab/smartcab/agent.py:45-54 | The state is in the table afterwards and no other key is added. A state already present keeps its entry, so `Ensure` is idempotent. An absent state gets the initial entry. Well-formedness is preserved. |
| `QTable.MaxValue` | projects/smartcab/smartcab/agent.py:48 | The result is at least every value of the entry and equals one of them: it is the maximum. |
| `QTable.TiesIn` | projects/smartcab/smartcab/agent.py:49 | The filtered list holds exactly the moves of the input list whose value equals the given one. It has no repetition when the input list has none. |
| `QTable.Ties` | projects/smartcab/smartcab/agent.py:48-50 | The candidate list of the greedy branch is non-empty and has no repetition. An action is in it if and only if its value is the maximum. |
| `QTable.TiesInAllAtValue` | projects/smartcab/smartcab/agent.py:49 | When every move of the list has the given value, the filter keeps the whole list unchanged and in order. |
| `QTable.TiesOfInitEntry` | projects/smartcab/smartcab/agent.py:53-55 | A freshly inserted entry has maximum `Q_0` and all four actions tie, in list order. |
| `QTable.Learned` | projects/smartcab/smartcab/agent.py:63-65 | The update rule. Its new error to the target `reward + gamma * Q_max` is `1 - alpha` times the old error; `LearnedTowardTarget` and `LearnedExample` hold its other properties. |
| `QTable.LearnedTowardTarget` | projects/smartcab/smartcab/agent.py:65 | The new value lies between the old value and the target `reward + gamma * Q_max`. |
| `QTable.LearnedExample` | projects/smartcab/smartcab/agent.py:65 | `10 + 0.8 * (5 + 0.5 * 15 - 10) = 12`. |
| `QTable.Learn` | projects/smartcab/smartcab/agent.py:61-66 | The (previous state, previous action) value becomes the learned value, bootstrapped from the current state's maximum. Every other value and every key is unchanged, and well-formedness is kept. |
| `QTable.NextTable` | projects/smartcab/smartcab/agent.py:45-66 | One tick's table: keys are the old keys plus the current state, and a new state holds the initial entry. Every existing value other than the previous pair is unchanged; with no previous transition, no existing value changes. The previous pair gets the learned value, with the maximum taken after insertion (`Q_0` for a new state). |
| `Policy.Pick` | projects/smartcab/smartcab/agent.py:50 | The index lies within the list, and it is the bucket `floor(c * n)` that the draw falls into. |
| `Policy.Select` | projects/smartcab/smartcab/agent.py:45-55 | In a known state with `r < epsilon`, the chosen action has the state's maximum value. In every other case the action is the uniform pick among the four actions. |
| `Policy.GreedyPicksUniqueMax` | projects/smartcab/smartcab/agent.py:46-50 | In the greedy branch, an action strictly better than the other three is always chosen. |
| `Policy.EpsilonOneIsGreedy` | projects/smartcab/smartcab/agent.py:46-50 | With `epsilon = 1`, every draw takes the greedy branch. A known state with a unique best action therefore always gets that action. |
| `Policy.EpsilonZeroExplores` | projects/smartcab/smartcab/agent.py:46-52 | With `epsilon = 0`, the action is always the uniform pick among all four actions. |
| `Policy.NewStateIgnoresEpsilonDraw` | projects/smartcab/smartcab/agent.py:53-55 | For a new state the `r` draw has no effect. The pick equals what the greedy branch would choose on the fresh entry, where all four tie. |
| `Agent.LearningAgent.constructor` | projects/smartcab/smartcab/agent.py:9-23 | A new agent has an empty table and no state. Previous state, action and reward are all absent. |
| `Agent.LearningAgent.Reset` | projects/smartcab/smartcab/agent.py:25-27 | As written, reset changes none of the agent's fields: not the table and not the previous transition. |
| `Agent.LearningAgent.ResetForTrial` | projects/smartcab/smartcab/agent.py:25-27 | Corrected reset: it clears the previous transition and keeps the table. |
| `Agent.LearningAgent.LearnPrevious` | projects/smartcab/smartcab/agent.py:61-66 | With a previous transition, the table becomes `Learn` of the old table, that transition and the current state. Without one, the table is unchanged. Only the table is modified, and validity is kept. |
| `Agent.LearningAgent.Update` | projects/smartcab/smartcab/agent.py:29-71 | After a tick the state is the encoded key and the action is `Select` on the old table. The table is `NextTable` of the old table and the old transition. The previous state, action and reward are this tick's. Validity is kept: every entry maps exactly four actions, and the previous state is always in the table, so the lookup at line 63 cannot fail. |
| `Agent.TwoStepTrial` | projects/smartcab/smartcab/agent.py:29-71 | Two ticks from a fresh agent: (A, forward, reward 2), then (B, left, reward 10). Afterwards (A, forward) is 10.6, learned from B's fresh maximum 15, and (B, left) is still 15. |
| `Agent.TrialBoundaryAsWritten` | projects/smartcab/smartcab/agent.py:25-71 | With the written reset between the two ticks, the first tick of the new trial still rewrites (A, forward) to 10.6. |
| `Agent.TrialBoundaryCorrected` | projects/smartcab/smartcab/agent.py:61 | With the corrected reset, the first tick of the new trial leaves (A, forward) at 15. |
| `Agent.StaleTransitionLearns` | projects/smartcab/smartcab/agent.py:61-66 | A carried-over transition whose value differs from its target is always changed by the next tick. |

## Findings

| source | as written | input that shows it | evidently intended | confidence | as-written member | corrected member |
|---|---|---|---|---|---|---|
| projects/smartcab/smartcab/agent.py:25-27 | `reset` only re-plans the route. `prev_state`, `prev_action` and `prev_reward` survive into the next trial, so the guard at line 61 skips only the agent's very first tick. | Trial 1 ends after (A, forward, reward 2). The first tick of trial 2 reaches a new state B, and (A, forward) goes from 15 to 10.6. | The comment at line 61 says the guard skips the first step of a trial, so reset should clear the previous transition and that tick should change no existing value. | medium, not executed | `Agent.TrialBoundaryAsWritten` | `Agent.LearningAgent.ResetForTrial` |

`Reset` models the code as written, and `TrialBoundaryAsWritten` shows the
cross-trial update it allows. `ResetForTrial` clears the transition. With it,
`NextTable`'s contract for an absent transition (no existing value changes)
applies to the first tick of every trial, as `TrialBoundaryCorrected` shows.

## Left out

- The environment and the planner are not part of this model. `env.sense`, `env.get_deadline`, `env.act`, `planner.next_waypoint` and `planner.route_to` become the parameters `inputs`, `deadline`, `act` and `waypoint`. Reset takes no destination because only the planner uses it.
- `update`'s time-step argument is never read by the source, so `Update` does not take it.
- The pseudo-random generator is left out; `r` and `c` are caller-supplied draws in [0, 1). Whether the tie-break is fair is a statistical property and is not stated.
- `Policy.Ties` lists tied actions in the order None, forward, left, right. The source takes the keys of a dictionary, in hash order. The set of candidates is the same, but a given draw `c` may select a different tied action.
- `alpha`, `gamma`, `epsilon` and the Q-values are exact reals, not IEEE doubles, so float rounding is not modelled.
- The source builds the state as a list of four appends, then converts it to a tuple. The model builds the `State` value directly. The commented-out deadline feature and the debug print are not modelled.
- `run()`, the simulator and the rendering are driver and I/O code and are not part of this model.
- Malformed percepts cannot occur, because the datatypes admit only the four headings and the two lights.
