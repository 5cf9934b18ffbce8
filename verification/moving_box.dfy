/**
 The moving box of the Force & Motion scene: its per-frame callback, the
 start-time latch that runs when the play flag changes, and its imperative
 scene reset. The physics engine's position and velocity readings, the
 frame delta and the wall clock (`Date.now()`, integer milliseconds) are
 inputs, so one frame is a pure function of the box's refs and those inputs.
 */
module MovingBox {
  import opened SimulationStore

  /** The three mutable refs the box component keeps between frames. */
  datatype Refs = Refs(lastVelocity: real, time: real, startTime: int)

  /** What one frame reads from the outside world. */
  datatype FrameInput = FrameInput(delta: real, now: int, position: real, velocity: real)

  /** The force the frame asked the engine to apply: none, or `newtons` along +x
      at the body's centre. */
  datatype Push = NoPush | PushX(newtons: real)

  /** What one frame produces: the updated refs, the force request and the one
      data point handed to the data-point callback. */
  datatype FrameResult = FrameResult(refs: Refs, push: Push, point: DataPoint)

  /** Refs of a freshly mounted or freshly reset box. */
  function RestRefs(): (r: Refs)
    ensures r.lastVelocity == 0.0 && r.time == 0.0 && r.startTime == 0
  {
    Refs(0.0, 0.0, 0)
  }

  /** Backward difference of the engine velocity, guarded against a
      non-positive frame delta. */
  function Acceleration(velocity: real, lastVelocity: real, delta: real): (a: real)
    ensures delta <= 0.0 ==> a == 0.0
    ensures delta > 0.0 ==> a * delta == velocity - lastVelocity
  {
    if delta > 0.0 then (velocity - lastVelocity) / delta else 0.0
  }

  /** Seconds elapsed between the latched start and `now`, both in ms. */
  function ElapsedSeconds(now: int, startTime: int): (t: real)
    ensures t * 1000.0 == (now - startTime) as real
    ensures now >= startTime ==> t >= 0.0
  {
    (now - startTime) as real / 1000.0
  }

  /** One frame. While playing the force is applied and the time ref is
      recomputed from the clock; the velocity ref and the emitted point are
      produced on every frame. */
  function Frame(refs: Refs, isPlaying: bool, force: real, input: FrameInput): (r: FrameResult)
    ensures r.push == (if isPlaying then PushX(force) else NoPush)
    ensures isPlaying ==> r.refs.time * 1000.0 == (input.now - refs.startTime) as real
    ensures !isPlaying ==> r.refs.time == refs.time
    ensures r.refs.lastVelocity == input.velocity
    ensures r.refs.startTime == refs.startTime
    ensures r.point.time == r.refs.time
    ensures r.point.position == input.position && r.point.velocity == input.velocity
    ensures input.delta <= 0.0 ==> r.point.acceleration == 0.0
    ensures input.delta > 0.0 ==> r.point.acceleration * input.delta == input.velocity - refs.lastVelocity
  {
    var time := if isPlaying then ElapsedSeconds(input.now, refs.startTime) else refs.time;
    var push := if isPlaying then PushX(force) else NoPush;
    var acceleration := Acceleration(input.velocity, refs.lastVelocity, input.delta);
    FrameResult(
      Refs(input.velocity, time, refs.startTime),
      push,
      DataPoint(time, input.position, input.velocity, acceleration))
  }

  /** The effect run when the play flag changes: the start time is latched
      only when playing and not latched yet (0 means unset). */
  function LatchStart(refs: Refs, isPlaying: bool, now: int): (r: Refs)
    ensures isPlaying && refs.startTime == 0 ==> r.startTime == now
    ensures !(isPlaying && refs.startTime == 0) ==> r.startTime == refs.startTime
    ensures r.lastVelocity == refs.lastVelocity && r.time == refs.time
  {
    if isPlaying && refs.startTime == 0 then refs.(startTime := now) else refs
  }

  /** The imperative reset: the refs go back to rest whatever they held. */
  function SceneReset(refs: Refs): (r: Refs)
    ensures r.lastVelocity == 0.0 && r.time == 0.0 && r.startTime == 0
  {
    RestRefs()
  }

  /** A series of play-flag changes, each observed at its own clock reading. */
  function LatchAll(refs: Refs, flags: seq<bool>, clocks: seq<int>): Refs
    requires |flags| == |clocks|
    decreases |flags|
  {
    if |flags| == 0 then refs else LatchAll(LatchStart(refs, flags[0], clocks[0]), flags[1..], clocks[1..])
  }

  /** A latched start time is never moved by later play/pause changes:
      resuming after a pause keeps the original time origin. */
  lemma {:induction false} LatchIsSticky(refs: Refs, flags: seq<bool>, clocks: seq<int>)
    requires |flags| == |clocks|
    requires refs.startTime != 0
    ensures LatchAll(refs, flags, clocks).startTime == refs.startTime
    decreases |flags|
  {
    if |flags| > 0 {
      LatchIsSticky(LatchStart(refs, flags[0], clocks[0]), flags[1..], clocks[1..]);
    }
  }

  /** One frame together with the play flag it was rendered under. */
  datatype Tick = Tick(isPlaying: bool, input: FrameInput)

  /** The outcome of a run of frames: the final refs and one point per frame. */
  datatype FramesResult = FramesResult(refs: Refs, points: seq<DataPoint>)

  /** Runs consecutive frames; every frame emits exactly one point carrying
      that frame's engine readings, and the start time is left alone. */
  function RunFrames(refs: Refs, force: real, ticks: seq<Tick>): (r: FramesResult)
    ensures |r.points| == |ticks|
    ensures forall i :: 0 <= i < |ticks| ==>
      r.points[i].position == ticks[i].input.position && r.points[i].velocity == ticks[i].input.velocity
    ensures |ticks| > 0 ==> r.refs.lastVelocity == ticks[|ticks| - 1].input.velocity
    ensures r.refs.startTime == refs.startTime
    decreases |ticks|
  {
    if |ticks| == 0 then FramesResult(refs, [])
    else
      var f := Frame(refs, ticks[0].isPlaying, force, ticks[0].input);
      var rest := RunFrames(f.refs, force, ticks[1..]);
      FramesResult(rest.refs, [f.point] + rest.points)
  }

  /** The clock never runs backwards across the frames. */
  predicate ClockNondecreasing(ticks: seq<Tick>)
  {
    forall i, j :: 0 <= i < j < |ticks| ==> ticks[i].input.now <= ticks[j].input.now
  }

  predicate TimesNondecreasing(points: seq<DataPoint>)
  {
    forall i, j :: 0 <= i < j < |points| ==> points[i].time <= points[j].time
  }

  /** The time ref is not ahead of the clock reading `now`. */
  predicate TimeBehind(refs: Refs, now: int)
  {
    refs.time * 1000.0 <= (now - refs.startTime) as real
  }

  /** With a fixed time origin and a clock that never runs backwards, the
      emitted times never decrease, across any mix of playing and paused
      frames; each is at least the time ref the run started from. */
  lemma {:induction false} FrameTimesNondecreasing(refs: Refs, force: real, ticks: seq<Tick>)
    requires ClockNondecreasing(ticks)
    requires |ticks| > 0 ==> TimeBehind(refs, ticks[0].input.now)
    ensures TimesNondecreasing(RunFrames(refs, force, ticks).points)
    ensures forall i :: 0 <= i < |ticks| ==> refs.time <= RunFrames(refs, force, ticks).points[i].time
    decreases |ticks|
  {
    if |ticks| > 0 {
      var f := Frame(refs, ticks[0].isPlaying, force, ticks[0].input);
      var rest := ticks[1..];
      ClockTail(ticks);
      if |rest| > 0 {
        assert ticks[0].input.now <= rest[0].input.now;
      }
      FrameTimesNondecreasing(f.refs, force, rest);
      var tail := RunFrames(f.refs, force, rest).points;
      assert RunFrames(refs, force, ticks).points == [f.point] + tail;
      ConsNondecreasing(f.point, tail);
    }
  }

  /** The tail of a non-decreasing clock is non-decreasing. */
  lemma ClockTail(ticks: seq<Tick>)
    requires |ticks| > 0 && ClockNondecreasing(ticks)
    ensures ClockNondecreasing(ticks[1..])
  {
    var rest := ticks[1..];
    forall i, j | 0 <= i < j < |rest|
      ensures rest[i].input.now <= rest[j].input.now
    {
      assert rest[i] == ticks[i + 1] && rest[j] == ticks[j + 1];
    }
  }

  /** A point no later than every later point extends a non-decreasing run. */
  lemma ConsNondecreasing(p: DataPoint, ps: seq<DataPoint>)
    requires TimesNondecreasing(ps)
    requires forall i :: 0 <= i < |ps| ==> p.time <= ps[i].time
    ensures TimesNondecreasing([p] + ps)
  {
    var qs := [p] + ps;
    forall i, j | 0 <= i < j < |qs|
      ensures qs[i].time <= qs[j].time
    {
      assert qs[j] == ps[j - 1];
      if i > 0 {
        assert qs[i] == ps[i - 1];
      }
    }
  }

  /** While paused, every frame re-emits the time ref unchanged. */
  lemma {:induction false} PausedFramesFreezeTime(refs: Refs, force: real, ticks: seq<Tick>)
    requires forall i :: 0 <= i < |ticks| ==> !ticks[i].isPlaying
    ensures forall i :: 0 <= i < |ticks| ==> RunFrames(refs, force, ticks).points[i].time == refs.time
    ensures RunFrames(refs, force, ticks).refs.time == refs.time
    decreases |ticks|
  {
    if |ticks| > 0 {
      var f := Frame(refs, false, force, ticks[0].input);
      PausedFramesFreezeTime(f.refs, force, ticks[1..]);
      var points := RunFrames(refs, force, ticks).points;
      assert points == [f.point] + RunFrames(f.refs, force, ticks[1..]).points;
      forall i | 0 <= i < |ticks|
        ensures points[i].time == refs.time
      {
        if i > 0 {
          assert points[i] == RunFrames(f.refs, force, ticks[1..]).points[i - 1];
        }
      }
    }
  }

  /** After a scene reset, pressing play at clock `t0` and rendering a first
      playing frame at `input.now >= t0` starts a fresh trajectory: the time is
      measured from `t0` and the acceleration is taken from rest. */
  lemma ResetThenPlayStartsFresh(refs: Refs, force: real, t0: int, input: FrameInput)
    requires t0 != 0 && input.now >= t0
    ensures var f := Frame(LatchStart(SceneReset(refs), true, t0), true, force, input);
      && f.point.time * 1000.0 == (input.now - t0) as real
      && f.point.time >= 0.0
      && (input.delta > 0.0 ==> f.point.acceleration * input.delta == input.velocity)
  {
  }
}
