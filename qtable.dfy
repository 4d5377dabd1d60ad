/** The Q-table: a map from state to a map from action to value, filled
    lazily with an optimistic initial entry, and the one-step Q-learning
    rule that rewrites a single (state, action) value. */
module QTable {
  import opened Domain

  /** Optimistic initial value of every action of a new state. */
  const Q0: real := 15.0
  /** Discount factor. */
  const Gamma: real := 0.5
  /** Learning rate. */
  const Alpha: real := 0.8

  type Entry = map<Move, real>
  type Table = map<State, Entry>

  /** The entry maps every one of the four actions. */
  ghost predicate Total(e: Entry) {
    forall a: Move :: a in e
  }

  /** Every state of the table maps exactly the four actions. */
  ghost predicate WellFormed(q: Table) {
    forall s :: s in q ==> Total(q[s])
  }

  /** The entry a new state is given: every action at Q0. */
  function InitEntry(): (e: Entry)
    ensures Total(e)
    ensures forall a :: a in e ==> e[a] == Q0
  {
    MovesComplete();
    map a | a in Moves :: Q0
  }

  /** Inserts `s` with a fresh copy of the initial entry when it is absent;
      a state already present keeps its values. */
  function Ensure(q: Table, s: State): (r: Table)
    ensures r.Keys == q.Keys + {s}
    ensures forall t :: t in q ==> r[t] == q[t]
    ensures s !in q ==> r[s] == InitEntry()
    ensures WellFormed(q) ==> WellFormed(r)
  {
    if s in q then q else q[s := InitEntry()]
  }

  function Max(x: real, y: real): real {
    if x < y then y else x
  }

  /** The largest value of an entry. */
  function MaxValue(e: Entry): (m: real)
    requires Total(e)
    ensures forall a :: a in e ==> e[a] <= m
    ensures exists a :: a in e && e[a] == m
  {
    var m := Max(Max(e[Stay], e[Forward]), Max(e[Left], e[Right]));
    KeyCases(e);
    assert m == e[Stay] || m == e[Forward] || m == e[Left] || m == e[Right];
    m
  }

  /** The moves of `xs`, in order, whose value in `e` is `m`. */
  function TiesIn(e: Entry, m: real, xs: seq<Move>): (t: seq<Move>)
    requires Total(e)
    ensures forall a :: a in t <==> a in xs && e[a] == m
    ensures Distinct(xs) ==> Distinct(t)
  {
    if xs == [] then []
    else
      var rest := TiesIn(e, m, xs[1..]);
      assert Distinct(xs) ==> xs[0] !in xs[1..];
      if e[xs[0]] == m then [xs[0]] + rest else rest
  }

  /** The actions that tie at the maximum of an entry: never empty, each
      action at most once, and exactly those whose value is the maximum. */
  function Ties(e: Entry): (t: seq<Move>)
    requires Total(e)
    ensures |t| > 0 && Distinct(t)
    ensures forall a :: a in t <==> e[a] == MaxValue(e)
  {
    var m := MaxValue(e);
    MovesComplete();
    var a :| a in e && e[a] == m;
    assert a in Moves;
    TiesIn(e, m, Moves)
  }

  /** Filtering a list whose every move has value `m` keeps the list. */
  lemma {:induction false} TiesInAllAtValue(e: Entry, m: real, xs: seq<Move>)
    requires Total(e)
    requires forall i :: 0 <= i < |xs| ==> e[xs[i]] == m
    ensures TiesIn(e, m, xs) == xs
  {
    if xs != [] {
      TiesInAllAtValue(e, m, xs[1..]);
    }
  }

  /** For a freshly inserted state all four actions tie, in list order. */
  lemma TiesOfInitEntry()
    ensures MaxValue(InitEntry()) == Q0
    ensures Ties(InitEntry()) == Moves
  {
    var e := InitEntry();
    assert MaxValue(e) == e[Stay] == Q0;
    TiesInAllAtValue(e, Q0, Moves);
  }

  /** The updated value of Q_prev, given the reward that followed it and the
      maximum value of the state reached. It moves the old value a fraction
      Alpha of the way to the target reward + Gamma * qMax: the new error to
      the target is (1 - Alpha) times the old one. */
  function Learned(qPrev: real, reward: real, qMax: real): (v: real)
    ensures v - (reward + Gamma * qMax) == (1.0 - Alpha) * (qPrev - (reward + Gamma * qMax))
  {
    qPrev + Alpha * (reward + Gamma * qMax - qPrev)
  }

  /** The new value lies between the old value and the target. */
  lemma LearnedTowardTarget(qPrev: real, reward: real, qMax: real)
    ensures qPrev <= reward + Gamma * qMax ==>
            qPrev <= Learned(qPrev, reward, qMax) <= reward + Gamma * qMax
    ensures reward + Gamma * qMax <= qPrev ==>
            reward + Gamma * qMax <= Learned(qPrev, reward, qMax) <= qPrev
  {
  }

  /** A numeric instance of the update rule: 10 + 0.8 * (5 + 0.5 * 15 - 10) = 12. */
  lemma LearnedExample()
    ensures Learned(10.0, 5.0, 15.0) == 12.0
  {
  }

  /** A transition held across one step boundary: state, action, reward. */
  datatype Transition = Transition(state: State, action: Move, reward: real)

  /** Rewrites the value of (t.state, t.action), bootstrapping from the
      maximum of `s`; every other value and every key stays as it was. */
  function Learn(q: Table, t: Transition, s: State): (r: Table)
    requires WellFormed(q) && t.state in q && s in q
    ensures WellFormed(r) && r.Keys == q.Keys
    ensures r[t.state][t.action] == Learned(q[t.state][t.action], t.reward, MaxValue(q[s]))
    ensures forall u, a :: u in q && (u != t.state || a != t.action) ==> r[u][a] == q[u][a]
  {
    var e := q[t.state];
    q[t.state := e[t.action := Learned(e[t.action], t.reward, MaxValue(q[s]))]]
  }

  /** The table after one step that reaches `s` with previous transition
      `prev`: `s` is inserted if new, then the previous pair, and only it,
      is rewritten with the maximum of `s` taken after the insertion. */
  function NextTable(q: Table, prev: Option<Transition>, s: State): (r: Table)
    requires WellFormed(q)
    requires prev.Some? ==> prev.value.state in q
    ensures WellFormed(r) && r.Keys == q.Keys + {s}
    ensures s !in q ==> r[s] == InitEntry()
    ensures forall u, a :: u in q && (prev.None? || u != prev.value.state || a != prev.value.action)
              ==> r[u][a] == q[u][a]
    ensures prev.Some? ==>
              r[prev.value.state][prev.value.action]
              == Learned(q[prev.value.state][prev.value.action], prev.value.reward,
                         if s in q then MaxValue(q[s]) else Q0)
  {
    var q1 := Ensure(q, s);
    match prev
    case None => q1
    case Some(t) =>
      TiesOfInitEntry();
      Learn(q1, t, s)
  }
}
