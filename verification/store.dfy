/**
 The Force & Motion simulation store: the configuration (mass, force,
 friction, play flag), the live readout and the chart history capped at
 300 samples. Every action replaces whole fields of an immutable state.
 */
module SimulationStore {

  /** One sample emitted by the scene: seconds since play started, then the
      engine-reported position and velocity and the derived acceleration. */
  datatype DataPoint = DataPoint(time: real, position: real, velocity: real, acceleration: real)

  /** The instantaneous readout shown next to the scene. */
  datatype LiveData = LiveData(position: real, velocity: real, acceleration: real)

  /** The whole store. The configuration values are single-element slider
      tuples in the source; here they are the element itself. */
  datatype SimState = SimState(
    mass: real,
    force: real,
    friction: real,
    isPlaying: bool,
    simulationData: seq<DataPoint>,
    liveData: LiveData)

  /** The history keeps at most this many samples. */
  const HistoryCapacity: nat := 300

  /** The readout part of a sample. */
  function Live(p: DataPoint): LiveData
  {
    LiveData(p.position, p.velocity, p.acceleration)
  }

  /** JavaScript's `xs.slice(-n)` for a positive `n`: the last `min(|xs|, n)`
      elements, in order. */
  function LastN<T>(xs: seq<T>, n: nat): (r: seq<T>)
    requires n > 0
    ensures |r| == if |xs| <= n then |xs| else n
    ensures r == xs[|xs| - |r|..]
  {
    if |xs| <= n then xs else xs[|xs| - n..]
  }

  /** The state invariant every reachable state keeps. */
  predicate Valid(s: SimState)
  {
    |s.simulationData| <= HistoryCapacity
  }

  /** The two states agree on the configuration. */
  predicate SameConfig(s: SimState, t: SimState)
  {
    s.mass == t.mass && s.force == t.force && s.friction == t.friction && s.isPlaying == t.isPlaying
  }

  /** The state the store starts in and returns to on reset. */
  function InitialState(): (s: SimState)
    ensures s.mass == 1.0 && s.force == 10.0 && s.friction == 0.1
    ensures !s.isPlaying
    ensures s.simulationData == []
    ensures s.liveData == LiveData(0.0, 0.0, 0.0)
    ensures Valid(s)
  {
    SimState(1.0, 10.0, 0.1, false, [], LiveData(0.0, 0.0, 0.0))
  }

  function SetMass(s: SimState, mass: real): (r: SimState)
    ensures r.mass == mass
    ensures r.force == s.force && r.friction == s.friction && r.isPlaying == s.isPlaying
    ensures r.simulationData == s.simulationData && r.liveData == s.liveData
  {
    s.(mass := mass)
  }

  function SetForce(s: SimState, force: real): (r: SimState)
    ensures r.force == force
    ensures r.mass == s.mass && r.friction == s.friction && r.isPlaying == s.isPlaying
    ensures r.simulationData == s.simulationData && r.liveData == s.liveData
  {
    s.(force := force)
  }

  function SetFriction(s: SimState, friction: real): (r: SimState)
    ensures r.friction == friction
    ensures r.mass == s.mass && r.force == s.force && r.isPlaying == s.isPlaying
    ensures r.simulationData == s.simulationData && r.liveData == s.liveData
  {
    s.(friction := friction)
  }

  /** Play and pause touch the flag only: the history is never truncated. */
  function SetPlaying(s: SimState, isPlaying: bool): (r: SimState)
    ensures r.isPlaying == isPlaying
    ensures r.mass == s.mass && r.force == s.force && r.friction == s.friction
    ensures r.simulationData == s.simulationData && r.liveData == s.liveData
  {
    s.(isPlaying := isPlaying)
  }

  /** Appends `p` to the history and keeps only the newest 300 samples. The
      store itself does not look at the play flag. */
  function AddSimulationData(s: SimState, p: DataPoint): (r: SimState)
    ensures |r.simulationData| > 0 && r.simulationData[|r.simulationData| - 1] == p
    ensures |s.simulationData| < HistoryCapacity ==> r.simulationData == s.simulationData + [p]
    ensures |s.simulationData| == HistoryCapacity ==> r.simulationData == s.simulationData[1..] + [p]
    ensures Valid(r)
    ensures SameConfig(r, s) && r.liveData == s.liveData
  {
    s.(simulationData := LastN(s.simulationData + [p], HistoryCapacity))
  }

  function SetLiveData(s: SimState, live: LiveData): (r: SimState)
    ensures r.liveData == live
    ensures SameConfig(r, s) && r.simulationData == s.simulationData
  {
    s.(liveData := live)
  }

  /** The readout keeps only the latest write: writing it twice is writing
      the second value, and writing the current readout changes nothing. */
  lemma LiveDataLastWriterWins(s: SimState, a: LiveData, b: LiveData)
    ensures SetLiveData(SetLiveData(s, a), b) == SetLiveData(s, b)
    ensures SetLiveData(s, s.liveData) == s
  {
  }

  /** Reset replaces every state field with its initial value. */
  function Reset(s: SimState): (r: SimState)
    ensures r == InitialState()
  {
    InitialState()
  }

  /** The store's action set, as a value, so that traces of actions can be
      reasoned about. */
  datatype Action =
    | SetMassAction(mass: real)
    | SetForceAction(force: real)
    | SetFrictionAction(friction: real)
    | SetPlayingAction(isPlaying: bool)
    | AddSimulationDataAction(point: DataPoint)
    | SetLiveDataAction(live: LiveData)
    | ResetAction
  {
    /** The action writes configuration fields only. */
    predicate IsConfigAction()
    {
      SetMassAction? || SetForceAction? || SetFrictionAction? || SetPlayingAction?
    }
  }

  function Apply(s: SimState, a: Action): SimState
  {
    match a
    case SetMassAction(m) => SetMass(s, m)
    case SetForceAction(f) => SetForce(s, f)
    case SetFrictionAction(mu) => SetFriction(s, mu)
    case SetPlayingAction(b) => SetPlaying(s, b)
    case AddSimulationDataAction(p) => AddSimulationData(s, p)
    case SetLiveDataAction(l) => SetLiveData(s, l)
    case ResetAction => Reset(s)
  }

  /** The state after performing `actions` in order, starting from `s`. */
  function Run(s: SimState, actions: seq<Action>): SimState
    decreases |actions|
  {
    if |actions| == 0 then s else Apply(Run(s, actions[..|actions| - 1]), actions[|actions| - 1])
  }

  /** Reference definition of the history: the points appended since the last
      reset, in the order they were appended, with no cap. */
  function AddedSinceReset(actions: seq<Action>): seq<DataPoint>
    decreases |actions|
  {
    if |actions| == 0 then []
    else
      var earlier := AddedSinceReset(actions[..|actions| - 1]);
      match actions[|actions| - 1]
      case AddSimulationDataAction(p) => earlier + [p]
      case ResetAction => []
      case _ => earlier
  }

  /** Capping after each append is the same as capping once at the end. */
  lemma LastNAppend<T>(xs: seq<T>, p: T, n: nat)
    requires n > 0
    ensures LastN(LastN(xs, n) + [p], n) == LastN(xs + [p], n)
  {
    if |xs| > n {
      assert (xs + [p])[|xs| + 1 - n..] == xs[|xs| + 1 - n..] + [p];
      assert xs[|xs| - n..][1..] == xs[|xs| + 1 - n..];
    }
  }

  /** Running actions one after the other composes. */
  lemma {:induction false} RunAppend(s: SimState, xs: seq<Action>, ys: seq<Action>)
    ensures Run(s, xs + ys) == Run(Run(s, xs), ys)
    decreases |ys|
  {
    if |ys| == 0 {
      assert xs + ys == xs;
    } else {
      var zs := xs + ys;
      assert zs[..|zs| - 1] == xs + ys[..|ys| - 1];
      assert zs[|zs| - 1] == ys[|ys| - 1];
      RunAppend(s, xs, ys[..|ys| - 1]);
    }
  }

  /** From the initial state, whatever the actions, the history is exactly the
      newest (at most 300) points appended since the last reset, in insertion
      order; in particular it never holds more than 300 samples. */
  lemma {:induction false} HistoryIsNewestAdded(actions: seq<Action>)
    ensures Run(InitialState(), actions).simulationData == LastN(AddedSinceReset(actions), HistoryCapacity)
    ensures Valid(Run(InitialState(), actions))
    decreases |actions|
  {
    if |actions| > 0 {
      var init := actions[..|actions| - 1];
      HistoryIsNewestAdded(init);
      match actions[|actions| - 1]
      case AddSimulationDataAction(p) =>
        LastNAppend(AddedSinceReset(init), p, HistoryCapacity);
      case _ =>
    }
  }

  /** Configuration-only actions (the four setters) never touch the history
      or the live readout, however many of them run: pausing and resuming
      keeps the chart intact. */
  lemma {:induction false} ConfigActionsPreserveObservables(s: SimState, actions: seq<Action>)
    requires forall i :: 0 <= i < |actions| ==> actions[i].IsConfigAction()
    ensures Run(s, actions).simulationData == s.simulationData
    ensures Run(s, actions).liveData == s.liveData
    decreases |actions|
  {
    if |actions| > 0 {
      ConfigActionsPreserveObservables(s, actions[..|actions| - 1]);
    }
  }

  /** Every action keeps the state invariant. */
  lemma ApplyPreservesValid(s: SimState, a: Action)
    requires Valid(s)
    ensures Valid(Apply(s, a))
  {
  }

  /** Reset is idempotent and forgets every earlier action. */
  lemma ResetForgetsHistory(s: SimState, actions: seq<Action>)
    ensures Reset(Reset(s)) == Reset(s)
    ensures Reset(Run(s, actions)) == Reset(s)
    ensures Reset(s).simulationData == [] && !Reset(s).isPlaying
  {
  }
}
