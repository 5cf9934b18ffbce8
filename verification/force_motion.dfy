/**
 The Simulation3D glue of the Force & Motion page: it feeds each frame's
 point into the store (live readout always, history only while playing),
 resets store and scene together, applies configuration snapshots received
 from the relay and publishes the local configuration whenever it changes.
 A client session strings these together over a sequence of events.
 */
module ForceMotion {
  import opened Options
  import opened SimulationStore
  import MovingBox

  /** The configuration snapshot exchanged with the relay. */
  datatype Config = Config(mass: real, force: real, friction: real, isPlaying: bool)

  function Snapshot(s: SimState): Config
  {
    Config(s.mass, s.force, s.friction, s.isPlaying)
  }

  /** The data-point callback: the readout is always overwritten, and the
      point joins the history only while playing. */
  function HandleDataPoint(s: SimState, p: DataPoint): (r: SimState)
    ensures r.liveData == Live(p)
    ensures s.isPlaying ==> r.simulationData == LastN(s.simulationData + [p], HistoryCapacity)
    ensures !s.isPlaying ==> r.simulationData == s.simulationData
    ensures Snapshot(r) == Snapshot(s)
    ensures Valid(s) ==> Valid(r)
  {
    var live := SetLiveData(s, Live(p));
    if s.isPlaying then AddSimulationData(live, p) else live
  }

  /** The handler for a configuration received from the relay: all four
      configuration fields take the payload's values, nothing else moves. */
  function HandleStateUpdate(s: SimState, c: Config): (r: SimState)
    ensures Snapshot(r) == c
    ensures r.simulationData == s.simulationData && r.liveData == s.liveData
  {
    SetPlaying(SetFriction(SetForce(SetMass(s, c.mass), c.force), c.friction), c.isPlaying)
  }

  /** The store actions the remote-update handler performs, in order. */
  function StateUpdateActions(c: Config): seq<Action>
  {
    [SetMassAction(c.mass), SetForceAction(c.force), SetFrictionAction(c.friction), SetPlayingAction(c.isPlaying)]
  }

  /** The handler is exactly its four setter calls. */
  lemma StateUpdateIsItsSetters(s: SimState, c: Config)
    ensures Run(s, StateUpdateActions(c)) == HandleStateUpdate(s, c)
  {
    var acts := StateUpdateActions(c);
    assert Run(s, acts[..1]) == SetMass(s, c.mass) by {
      assert acts[..1][..0] == [];
    }
    assert Run(s, acts[..2]) == SetForce(Run(s, acts[..1]), c.force) by {
      assert acts[..2][..1] == acts[..1];
    }
    assert Run(s, acts[..3]) == SetFriction(Run(s, acts[..2]), c.friction) by {
      assert acts[..3][..2] == acts[..2];
    }
    assert acts[..3] == acts[..|acts| - 1];
  }

  /** Remote updates are last-writer-wins replacements: applying the local
      snapshot changes nothing, and a second update overrides the first. */
  lemma StateUpdateLastWriterWins(s: SimState, c1: Config, c2: Config)
    ensures HandleStateUpdate(s, Snapshot(s)) == s
    ensures HandleStateUpdate(HandleStateUpdate(s, c1), c2) == HandleStateUpdate(s, c2)
  {
  }

  /** The play/pause button flips the flag. */
  function TogglePlay(s: SimState): (r: SimState)
    ensures r.isPlaying != s.isPlaying
    ensures r.mass == s.mass && r.force == s.force && r.friction == s.friction
    ensures r.simulationData == s.simulationData && r.liveData == s.liveData
  {
    SetPlaying(s, !s.isPlaying)
  }

  /** Store and scene after the reset button. */
  datatype ResetResult = ResetResult(store: SimState, box: Option<MovingBox.Refs>)

  /** The reset button resets the store and, when the scene is mounted, the
      box's refs. */
  function HandleReset(s: SimState, box: Option<MovingBox.Refs>): (r: ResetResult)
    ensures r.store == InitialState()
    ensures !r.store.isPlaying && r.store.simulationData == []
    ensures box.None? ==> r.box.None?
    ensures box.Some? ==> r.box == Some(MovingBox.RestRefs())
  {
    var store := Reset(s);
    match box
    case None => ResetResult(store, None)
    case Some(refs) => ResetResult(store, Some(MovingBox.SceneReset(refs)))
  }

  /** The dependencies of the outgoing-emit effect: whether a socket exists,
      and the four configuration values. */
  datatype EmitDeps = EmitDeps(connected: bool, config: Config)

  /** The outgoing-emit effect after a render: it runs when its dependencies
      differ from those of its previous run (`None` before the first run) and
      then sends the full snapshot if a socket exists. There is no check of
      where a change came from. */
  function OutgoingEmit(last: Option<EmitDeps>, current: EmitDeps): (sent: Option<Config>)
    ensures sent.Some? <==> current.connected && last != Some(current)
    ensures sent.Some? ==> sent.value == current.config
  {
    if current.connected && last != Some(current) then Some(current.config) else None
  }

  /** One client page: the store, the box's refs, whether the socket is up
      and the dependencies the emit effect last ran with. */
  datatype Client = Client(store: SimState, box: MovingBox.Refs, socket: bool, lastDeps: Option<EmitDeps>)

  /** The effect has caught up with the current render. */
  predicate Settled(c: Client)
  {
    c.lastDeps == Some(EmitDeps(c.socket, Snapshot(c.store)))
  }

  /** The page right after its first render: the socket is not created yet,
      and the first effect run saw no socket, so it sent nothing. */
  function InitialClient(): (c: Client)
    ensures c.store == InitialState() && Settled(c) && !c.socket
  {
    Client(InitialState(), MovingBox.RestRefs(), false, Some(EmitDeps(false, Snapshot(InitialState()))))
  }

  /** What can happen to a page: the socket becomes available, a frame is
      rendered, a snapshot arrives from the relay, the play/pause or reset
      button is pressed, or a slider moves. `now` is the clock reading in ms
      at which the play-flag effect runs. */
  datatype Event =
    | SocketReady
    | FrameEvent(input: MovingBox.FrameInput)
    | RemoteUpdate(config: Config, now: int)
    | PlayButton(now: int)
    | ResetButton
    | MassSlider(mass: real)
    | ForceSlider(force: real)
    | FrictionSlider(friction: real)

  /** The page after an event, the store actions it performed (in order) and
      what the emit effect sent to the relay. */
  datatype StepResult = StepResult(client: Client, log: seq<Action>, sent: Option<Config>)

  /** The store actions the data-point callback performs. */
  function FrameActions(s: SimState, p: DataPoint): seq<Action>
  {
    if s.isPlaying then [SetLiveDataAction(Live(p)), AddSimulationDataAction(p)] else [SetLiveDataAction(Live(p))]
  }

  /** The data-point callback is exactly its store actions, and it records the
      point for the history iff playing. */
  lemma FrameActionsAreHandler(s: SimState, p: DataPoint)
    ensures Run(s, FrameActions(s, p)) == HandleDataPoint(s, p)
    ensures AddedSinceReset(FrameActions(s, p)) == if s.isPlaying then [p] else []
  {
    var acts := FrameActions(s, p);
    assert acts[..1] == [SetLiveDataAction(Live(p))];
    assert AddedSinceReset(acts[..1]) == [] by {
      assert acts[..1][..0] == [];
    }
    RunOne(s, SetLiveDataAction(Live(p)));
    if s.isPlaying {
      RunTwo(s, SetLiveDataAction(Live(p)), AddSimulationDataAction(p));
    }
  }

  /** The store actions an event performs. */
  function EventActions(c: Client, e: Event): seq<Action>
  {
    match e
    case SocketReady => []
    case FrameEvent(input) =>
      FrameActions(c.store, MovingBox.Frame(c.box, c.store.isPlaying, c.store.force, input).point)
    case RemoteUpdate(cfg, _) => if c.socket then StateUpdateActions(cfg) else []
    case PlayButton(_) => [SetPlayingAction(!c.store.isPlaying)]
    case ResetButton => [ResetAction]
    case MassSlider(m) => [SetMassAction(m)]
    case ForceSlider(f) => [SetForceAction(f)]
    case FrictionSlider(mu) => [SetFrictionAction(mu)]
  }

  /** The start-time effect runs only when the play flag changed. */
  function AfterFlagChange(box: MovingBox.Refs, before: bool, after: bool, now: int): (r: MovingBox.Refs)
    ensures before == after ==> r == box
    ensures before != after && after && box.startTime == 0 ==> r.startTime == now
    ensures !(before != after && after && box.startTime == 0) ==> r.startTime == box.startTime
    ensures r.lastVelocity == box.lastVelocity && r.time == box.time
  {
    if before != after then MovingBox.LatchStart(box, after, now) else box
  }

  /** Finishes a step: the emit effect compares the new dependencies with
      the ones it last ran with, and sends the whole configuration when they
      differ and a socket exists. */
  function Settle(c: Client, store: SimState, box: MovingBox.Refs, socket: bool, log: seq<Action>): (r: StepResult)
    ensures r.client.store == store && r.client.box == box && r.client.socket == socket
    ensures Settled(r.client)
    ensures r.log == log
    ensures r.sent.Some? <==> socket && c.lastDeps != Some(EmitDeps(socket, Snapshot(store)))
    ensures r.sent.Some? ==> r.sent.value == Snapshot(store)
  {
    var deps := EmitDeps(socket, Snapshot(store));
    StepResult(Client(store, box, socket, Some(deps)), log, OutgoingEmit(c.lastDeps, deps))
  }

  /** One event on a page. */
  function Step(c: Client, e: Event): (r: StepResult)
    ensures r.log == EventActions(c, e)
    ensures Settled(r.client)
    ensures r.sent.Some? ==> r.client.socket && r.sent.value == Snapshot(r.client.store)
    ensures r.sent.Some? <==> r.client.socket && c.lastDeps != r.client.lastDeps
    ensures r.client.socket <==> c.socket || e.SocketReady?
  {
    match e
    case SocketReady =>
      Settle(c, c.store, c.box, true, [])
    case FrameEvent(input) =>
      var f := MovingBox.Frame(c.box, c.store.isPlaying, c.store.force, input);
      Settle(c, HandleDataPoint(c.store, f.point), f.refs, c.socket, EventActions(c, e))
    case RemoteUpdate(cfg, now) =>
      if c.socket then
        var store := HandleStateUpdate(c.store, cfg);
        Settle(c, store, AfterFlagChange(c.box, c.store.isPlaying, store.isPlaying, now), c.socket, EventActions(c, e))
      else
        Settle(c, c.store, c.box, c.socket, [])
    case PlayButton(now) =>
      var store := TogglePlay(c.store);
      Settle(c, store, AfterFlagChange(c.box, c.store.isPlaying, store.isPlaying, now), c.socket, EventActions(c, e))
    case ResetButton =>
      var reset := HandleReset(c.store, Some(c.box));
      Settle(c, reset.store, reset.box.value, c.socket, EventActions(c, e))
    case MassSlider(m) =>
      Settle(c, SetMass(c.store, m), c.box, c.socket, EventActions(c, e))
    case ForceSlider(f) =>
      Settle(c, SetForce(c.store, f), c.box, c.socket, EventActions(c, e))
    case FrictionSlider(mu) =>
      Settle(c, SetFriction(c.store, mu), c.box, c.socket, EventActions(c, e))
  }

  /** Every event changes the store exactly as its logged store actions do:
      the page reaches the store only through the store's own actions. */
  lemma StepIsItsActions(c: Client, e: Event)
    ensures Step(c, e).client.store == Run(c.store, Step(c, e).log)
  {
    match e
    case SocketReady =>
    case RemoteUpdate(cfg, now) => RemoteStepIsItsActions(c, cfg, now);
    case FrameEvent(input) => FrameStepIsItsActions(c, input);
    case PlayButton(_) => RunOne(c.store, SetPlayingAction(!c.store.isPlaying));
    case ResetButton => RunOne(c.store, ResetAction);
    case MassSlider(m) => RunOne(c.store, SetMassAction(m));
    case ForceSlider(f) => RunOne(c.store, SetForceAction(f));
    case FrictionSlider(mu) => RunOne(c.store, SetFrictionAction(mu));
  }

  lemma RemoteStepIsItsActions(c: Client, cfg: Config, now: int)
    ensures Step(c, RemoteUpdate(cfg, now)).client.store == Run(c.store, Step(c, RemoteUpdate(cfg, now)).log)
  {
    if c.socket {
      StateUpdateIsItsSetters(c.store, cfg);
    }
  }

  lemma FrameStepIsItsActions(c: Client, input: MovingBox.FrameInput)
    ensures Step(c, FrameEvent(input)).client.store == Run(c.store, Step(c, FrameEvent(input)).log)
  {
    FrameActionsAreHandler(c.store, MovingBox.Frame(c.box, c.store.isPlaying, c.store.force, input).point);
  }

  /** Running a single action is applying it. */
  lemma RunOne(s: SimState, a: Action)
    ensures Run(s, [a]) == Apply(s, a)
  {
    assert [a][..0] == [];
  }

  /** Running two actions is applying them in order. */
  lemma RunTwo(s: SimState, a: Action, b: Action)
    ensures Run(s, [a, b]) == Apply(Apply(s, a), b)
  {
    assert [a, b][..1] == [a];
    RunOne(s, a);
  }

  /** A frame adds its point to the history exactly when the page is playing;
      a paused frame leaves the history as it was but still moves the readout. */
  lemma FrameAppendsIffPlaying(c: Client, input: MovingBox.FrameInput)
    ensures var p := MovingBox.Frame(c.box, c.store.isPlaying, c.store.force, input).point;
      var r := Step(c, FrameEvent(input)).client.store;
      && r.liveData == Live(p)
      && (c.store.isPlaying <==> AddedSinceReset(Step(c, FrameEvent(input)).log) == [p])
      && (!c.store.isPlaying ==> r.simulationData == c.store.simulationData)
      && (c.store.isPlaying ==> r.simulationData[|r.simulationData| - 1] == p)
  {
    FrameActionsAreHandler(c.store, MovingBox.Frame(c.box, c.store.isPlaying, c.store.force, input).point);
  }

  /** A page that has caught up with its store re-sends a received snapshot
      that changed its configuration, verbatim, to the relay (which forwards it
      to every other page); one that changed nothing is not re-sent. */
  lemma RemoteUpdateIsEchoed(c: Client, cfg: Config, now: int)
    requires Settled(c) && c.socket
    ensures cfg != Snapshot(c.store) ==> Step(c, RemoteUpdate(cfg, now)).sent == Some(cfg)
    ensures cfg == Snapshot(c.store) ==> Step(c, RemoteUpdate(cfg, now)).sent == None
  {
  }

  /** The outcome of a whole session: final page, the concatenated store
      actions and everything sent to the relay, one entry per send. */
  datatype SessionResult = SessionResult(client: Client, log: seq<Action>, sent: seq<Config>)

  function RunSession(c: Client, events: seq<Event>): (r: SessionResult)
    ensures |r.sent| <= |events|
    ensures |events| > 0 ==> Settled(r.client)
    ensures |events| == 0 ==> r.client == c && r.log == [] && r.sent == []
    ensures r.client.socket <==> c.socket || exists i :: 0 <= i < |events| && events[i].SocketReady?
    decreases |events|
  {
    if |events| == 0 then SessionResult(c, [], [])
    else
      var first := Step(c, events[0]);
      var rest := RunSession(first.client, events[1..]);
      var out := match first.sent case Some(cfg) => [cfg] case None => [];
      SessionResult(rest.client, first.log + rest.log, out + rest.sent)
  }

  /** Over a whole session the page's store is the store's own actions replayed,
      so from a fresh page the history is always the newest (at most 300)
      points recorded while playing since the last reset. */
  lemma {:induction false} SessionIsStoreRun(c: Client, events: seq<Event>)
    ensures RunSession(c, events).client.store == Run(c.store, RunSession(c, events).log)
    decreases |events|
  {
    if |events| == 0 {
    } else {
      var first := Step(c, events[0]);
      StepIsItsActions(c, events[0]);
      SessionIsStoreRun(first.client, events[1..]);
      RunAppend(c.store, first.log, RunSession(first.client, events[1..]).log);
    }
  }

  /** From a fresh page, the chart history after any session is bounded and
      equals the newest points appended since the last reset. */
  lemma SessionHistoryBounded(events: seq<Event>)
    ensures var r := RunSession(InitialClient(), events);
      && r.client.store.simulationData == LastN(AddedSinceReset(r.log), HistoryCapacity)
      && |r.client.store.simulationData| <= HistoryCapacity
  {
    SessionIsStoreRun(InitialClient(), events);
    HistoryIsNewestAdded(RunSession(InitialClient(), events).log);
  }

  /** While playing the time origin is latched (non-zero). */
  predicate Latched(c: Client)
  {
    c.store.isPlaying ==> c.box.startTime != 0
  }

  /** Clock readings handed to the play-flag effect are positive, as
      `Date.now()` is. */
  predicate PositiveClock(e: Event)
  {
    match e
    case RemoteUpdate(_, now) => now > 0
    case PlayButton(now) => now > 0
    case _ => true
  }

  /** Every event keeps the time origin latched while playing, so a playing
      frame measures time from a real press of play. */
  lemma StepKeepsLatched(c: Client, e: Event)
    requires Latched(c) && PositiveClock(e)
    ensures Latched(Step(c, e).client)
  {
  }

  lemma {:induction false} SessionKeepsLatched(c: Client, events: seq<Event>)
    requires Latched(c)
    requires forall i :: 0 <= i < |events| ==> PositiveClock(events[i])
    ensures Latched(RunSession(c, events).client)
    decreases |events|
  {
    if |events| > 0 {
      StepKeepsLatched(c, events[0]);
      SessionKeepsLatched(Step(c, events[0]).client, events[1..]);
    }
  }
}
