/** Per-pitch playback: the `Pitch` class of src/pitch.ts.

    A pitch is constructed from telemetry, then stepped once per rendered frame by
    `animate`, which reads the wall clock. Here the clock reading is the parameter
    `now` (milliseconds). The flight is NOT_STARTED until the first frame records a
    time, IN_FLIGHT while the accumulated time is below the flight time, then holds
    at the plate with `pathDone` set, and finally reports `isDone`. */
module Playback {
  import opened Units
  import opened Trajectory

  /** Everything `restart` and `animate` read or write, as one value. */
  datatype PitchState = PitchState(
    kin: Kinematics, pitchTime: real,
    ball: Vec3, elapsedTime: real, lastTime: int,
    pathDone: bool, isDone: bool, showStrikeZone: bool)

  /** The state the constructor leaves: converted coefficients, the flight time from
      the host's end speed, the ball at the release point and every flag down. */
  function Launch(pitch: Telemetry, endSpeed: real): (s: PitchState)
    requires IsEndSpeed(ToKinematics(pitch), endSpeed)
    ensures s.kin == ToKinematics(pitch)
    ensures s.ball == Release(s.kin) && s.elapsedTime == 0.0 && s.lastTime == 0
    ensures !s.pathDone && !s.isDone && !s.showStrikeZone
    ensures PositionAt(s.kin, s.pitchTime).y == PlateFront
  {
    var k := ToKinematics(pitch);
    ReachesPlate(k, endSpeed);
    PitchState(k, PitchTime(k, endSpeed), Release(k), 0.0, 0, false, false, false)
  }

  /** restart(show): back to the release point and the not-started state. */
  function Restarted(s: PitchState, show: bool): (r: PitchState)
    ensures r.kin == s.kin && r.pitchTime == s.pitchTime
    ensures r.ball == Release(s.kin) && r.elapsedTime == 0.0 && r.lastTime == 0
    ensures !r.pathDone && !r.isDone && r.showStrikeZone == show
  {
    s.(ball := Release(s.kin), isDone := false, pathDone := false, showStrikeZone := show,
       elapsedTime := 0.0, lastTime := 0)
  }

  /** animate() at wall-clock time `now`. A lastTime of 0 means no frame has been seen
      yet. The hold test compares the frame gap in milliseconds with 1000 plus the
      flight time in seconds, exactly as the source does. */
  function Step(s: PitchState, now: int): (r: PitchState)
    ensures r.kin == s.kin && r.pitchTime == s.pitchTime && r.showStrikeZone == s.showStrikeZone
    ensures s.pathDone ==> r.pathDone
    ensures s.isDone ==> r.isDone
    ensures s.lastTime == 0 ==> r == s.(lastTime := now)
    ensures s.lastTime != 0 ==> r.ball == PositionAt(r.kin, r.elapsedTime)
    ensures s.lastTime != 0 ==>
      var acc := s.elapsedTime + (now - s.lastTime) as real / 1000.0;
      && r.elapsedTime == (if acc > s.pitchTime then s.pitchTime else acc)
      && (acc <= s.pitchTime ==> r.lastTime == now)
      && (acc > s.pitchTime ==>
            r.lastTime == (if (now - s.lastTime) as real > 1000.0 + s.pitchTime then now else s.lastTime))
  {
    if s.lastTime == 0 then
      s.(lastTime := now)
    else
      var elapsedMS := now - s.lastTime;
      var accumulated := s.elapsedTime + elapsedMS as real / 1000.0;
      var clamped := accumulated > s.pitchTime;
      var t := if clamped then s.pitchTime else accumulated;
      var finished := elapsedMS as real > 1000.0 + s.pitchTime;
      s.(elapsedTime := t, ball := PositionAt(s.kin, t),
         pathDone := s.pathDone || clamped, isDone := s.isDone || finished,
         lastTime := if !clamped || finished then now else s.lastTime)
  }

  /** The invariant every reachable state keeps while the clock does not run backwards:
      the ball is where the trajectory puts it at the elapsed time, a finished path is
      pinned to the flight time, and for a non-negative flight time the elapsed time
      stays inside [0, pitchTime]. */
  ghost predicate Coherent(s: PitchState) {
    && s.ball == PositionAt(s.kin, s.elapsedTime)
    && (s.pathDone ==> s.elapsedTime == s.pitchTime)
    && (0.0 <= s.pitchTime ==> 0.0 <= s.elapsedTime <= s.pitchTime)
  }

  lemma LaunchCoherent(pitch: Telemetry, endSpeed: real)
    requires IsEndSpeed(ToKinematics(pitch), endSpeed)
    ensures Coherent(Launch(pitch, endSpeed))
  {
  }

  /** restart(show) yields the same state whatever came before it. */
  lemma RestartForgetsHistory(s1: PitchState, s2: PitchState, show: bool)
    requires s1.kin == s2.kin && s1.pitchTime == s2.pitchTime
    ensures Restarted(s1, show) == Restarted(s2, show)
    ensures Coherent(Restarted(s1, show))
  {
  }

  /** restart(false) on a constructed pitch returns it to its constructed state. */
  lemma RestartRecoversLaunch(pitch: Telemetry, endSpeed: real, s: PitchState)
    requires IsEndSpeed(ToKinematics(pitch), endSpeed)
    requires s.kin == ToKinematics(pitch) && s.pitchTime == PitchTime(s.kin, endSpeed)
    ensures Restarted(s, false) == Launch(pitch, endSpeed)
  {
  }

  /** animate keeps the invariant as long as now >= lastTime. */
  lemma StepCoherent(s: PitchState, now: int)
    requires Coherent(s) && s.lastTime <= now
    ensures Coherent(Step(s, now))
  {
  }

  /** Once the path is done the ball sits exactly on the plate-front plane. */
  lemma {:induction false} PathDoneOnPlate(s: PitchState, endSpeed: real)
    requires Coherent(s) && s.pathDone
    requires IsEndSpeed(s.kin, endSpeed) && s.pitchTime == PitchTime(s.kin, endSpeed)
    ensures s.ball.y == PlateFront
  {
    ReachesPlate(s.kin, endSpeed);
  }

  /** pathDone is set exactly when the accumulated time passes the flight time, and
      isDone only on a frame whose gap exceeds 1000 + pitchTime. */
  lemma StepFlagsRaisedOnlyBy(s: PitchState, now: int)
    ensures var r := Step(s, now);
      (r.pathDone && !s.pathDone) <==>
        (s.lastTime != 0 && !s.pathDone && s.elapsedTime + (now - s.lastTime) as real / 1000.0 > s.pitchTime)
    ensures var r := Step(s, now);
      (r.isDone && !s.isDone) <==>
        (s.lastTime != 0 && !s.isDone && (now - s.lastTime) as real > 1000.0 + s.pitchTime)
  {
  }

  /** Frames applied one after another. */
  function Run(s: PitchState, times: seq<int>): PitchState
    decreases |times|
  {
    if times == [] then s else Run(Step(s, times[0]), times[1..])
  }

  /** Holding at the plate: while every frame comes no more than 1000 + pitchTime
      milliseconds after the frame that finished the path, nothing changes at all, so
      lastTime stays put and the gap to it keeps growing. */
  lemma {:induction false} HoldAtPlate(s: PitchState, times: seq<int>)
    requires Coherent(s) && s.pathDone && s.lastTime != 0
    requires forall i :: 0 <= i < |times| ==>
      s.lastTime <= times[i] && (times[i] - s.lastTime) as real <= 1000.0 + s.pitchTime
    ensures Run(s, times) == s
    decreases |times|
  {
    if times != [] {
      assert Step(s, times[0]) == s;
      HoldAtPlate(s, times[1..]);
    }
  }

  /** After the hold, the first frame whose gap exceeds 1000 + pitchTime finishes the pitch. */
  lemma DoneAfterHold(s: PitchState, now: int)
    requires s.lastTime != 0 && (now - s.lastTime) as real > 1000.0 + s.pitchTime
    ensures Step(s, now).isDone
  {
  }

  /** The pitch object. The coefficients never change after construction; the ball
      position, timing and the three flags are updated in place. */
  class Pitch {
    const x0: real
    const y0: real
    const z0: real
    const vx0: real
    const vy0: real
    const vz0: real
    const ax: real
    const ay: real
    const az: real
    const pitchTime: real
    /** The converted strike-zone bounds handed to the pitch's strike-zone mesh. */
    const zoneBottom: real
    const zoneTop: real
    /** The value the host's Math.sqrt produced for the end speed. */
    ghost const endSpeed: real

    var ballX: real
    var ballY: real
    var ballZ: real
    var elapsedTime: real
    var lastTime: int
    var showStrikeZone: bool
    var isDone: bool
    var pathDone: bool

    function Kin(): Kinematics {
      Kinematics(x0, y0, z0, vx0, vy0, vz0, ax, ay, az)
    }

    function State(): PitchState
      reads this
    {
      PitchState(Kin(), pitchTime, Vec3(ballX, ballY, ballZ), elapsedTime, lastTime,
                 pathDone, isDone, showStrikeZone)
    }

    ghost predicate Valid()
      reads this
    {
      && IsEndSpeed(Kin(), endSpeed)
      && pitchTime == PitchTime(Kin(), endSpeed)
      && Vec3(ballX, ballY, ballZ) == PositionAt(Kin(), elapsedTime)
    }

    constructor (pitch: Telemetry, endSpeed: real)
      requires IsEndSpeed(ToKinematics(pitch), endSpeed)
      ensures Valid() && State() == Launch(pitch, endSpeed)
      ensures zoneBottom == ConvertFeetVal(pitch.szBot) && zoneTop == ConvertFeetVal(pitch.szTop)
    {
      elapsedTime := 0.0;
      lastTime := 0;
      vx0 := ConvertFeetVal(pitch.vx0);
      vy0 := ConvertFeetVal(pitch.vy0);
      vz0 := ConvertFeetVal(pitch.vz0);
      ax := ConvertFeetVal(pitch.ax);
      ay := ConvertFeetVal(pitch.ay);
      az := ConvertFeetVal(pitch.az);
      x0 := ConvertFeetVal(pitch.x0);
      y0 := ConvertFeetVal(pitch.y0);
      z0 := ConvertFeetVal(pitch.z0);
      ballX := ConvertFeetVal(pitch.x0);
      ballY := ConvertFeetVal(pitch.y0);
      ballZ := ConvertFeetVal(pitch.z0);
      pitchTime := (endSpeed - ConvertFeetVal(pitch.vy0)) / ConvertFeetVal(pitch.ay);
      this.endSpeed := endSpeed;
      showStrikeZone := false;
      isDone := false;
      pathDone := false;
      zoneBottom := ConvertFeetVal(pitch.szBot);
      zoneTop := ConvertFeetVal(pitch.szTop);
    }

    method Restart(show: bool)
      requires Valid()
      modifies this
      ensures Valid() && State() == Restarted(old(State()), show)
    {
      ballX := x0;
      ballY := y0;
      ballZ := z0;
      isDone := false;
      pathDone := false;
      showStrikeZone := show;
      elapsedTime := 0.0;
      lastTime := 0;
    }

    method Animate(now: int)
      requires Valid()
      modifies this
      ensures Valid() && State() == Step(old(State()), now)
    {
      var setLastTime := true;
      if lastTime != 0 {
        var elapsedMS := now - lastTime;
        elapsedTime := elapsedTime + elapsedMS as real / 1000.0;
        if elapsedTime > pitchTime {
          elapsedTime := pitchTime;
          setLastTime := false;
          pathDone := true;
        }
        ballX := Displacement(x0, vx0, ax, elapsedTime);
        ballY := Displacement(y0, vy0, ay, elapsedTime);
        ballZ := Displacement(z0, vz0, az, elapsedTime);
        if elapsedMS as real > 1000.0 + pitchTime {
          setLastTime := true;
          isDone := true;
        }
      }
      if setLastTime {
        lastTime := now;
      }
    }
  }
}
