/** The smartcab agent's vocabulary: moves, traffic lights, what the
    environment senses, and the discrete state that keys the Q-table. */
module Domain {

  datatype Option<T> = None | Some(value: T)

  /** One of {None, 'forward', 'left', 'right'}. As an action `Stay` (the
      source's None) means staying put; as a planner waypoint or a traffic
      reading it means "no heading" or "no vehicle". */
  datatype Move = Stay | Forward | Left | Right

  /** The action list handed to random.choice, in the order it is written. */
  const Moves: seq<Move> := [Stay, Forward, Left, Right]

  datatype Light = Red | Green

  /** What the environment senses around the agent. */
  datatype Percept = Percept(light: Light, oncoming: Move, left: Move, right: Move)

  /** The learned state: (next waypoint, light, oncoming heading, left heading).
      Datatype equality is structural, as for the source's tuple key. */
  datatype State = State(waypoint: Move, light: Light, oncoming: Move, left: Move)

  /** No two positions of `xs` hold the same move. */
  predicate Distinct(xs: seq<Move>) {
    forall i, j :: 0 <= i < j < |xs| ==> xs[i] != xs[j]
  }

  /** Builds the state key from the waypoint and the percept; the deadline is
      sensed but not part of the key, and neither is right-hand traffic. */
  function Encode(waypoint: Move, inputs: Percept, deadline: int): (s: State)
    ensures s.waypoint == waypoint && s.light == inputs.light
    ensures s.oncoming == inputs.oncoming && s.left == inputs.left
  {
    State(waypoint, inputs.light, inputs.oncoming, inputs.left)
  }

  /** Two steps get the same key exactly when waypoint, light, oncoming and
      left-hand traffic agree, whatever the deadline and right-hand traffic. */
  lemma EncodeSameIff(w1: Move, p1: Percept, d1: int, w2: Move, p2: Percept, d2: int)
    ensures Encode(w1, p1, d1) == Encode(w2, p2, d2) <==>
            w1 == w2 && p1.light == p2.light && p1.oncoming == p2.oncoming && p1.left == p2.left
  {
  }

  /** Every key of a map over moves is one of the four moves. */
  lemma KeyCases<V>(e: map<Move, V>)
    ensures forall a :: a in e ==> a == Stay || a == Forward || a == Left || a == Right
  {
  }

  /** The action list holds each of the four moves exactly once. */
  lemma MovesComplete()
    ensures forall a: Move :: a in Moves
    ensures |Moves| == 4 && Distinct(Moves)
  {
    forall a: Move ensures a in Moves {
      match a
      case Stay => assert Moves[0] == a;
      case Forward => assert Moves[1] == a;
      case Left => assert Moves[2] == a;
      case Right => assert Moves[3] == a;
    }
  }
}
