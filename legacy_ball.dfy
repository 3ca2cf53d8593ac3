/** The early ball of src/webgl-pitch.ts: a sphere that moves in a straight line towards
    the plate at a constant speed, waits there, and after a second jumps back to its
    starting point.

    Positions are in metres, the speed in metres per second and times in milliseconds;
    `now` stands for `new Date().getTime()`. The rotation matrix the frame also turns is
    library matrix math and is not modelled; the rotation setting it reads is. */
module LegacyBall {
  import Sphere

  /** The ball's fields: current and original position, rotation step in degrees,
      speed, and the time of the last recorded frame (0 before the first). */
  datatype Ball = Ball(
    x: real, y: real, z: real,
    origX: real, origY: real, origZ: real,
    degRot: real, speed: real, lastTime: int)

  /** The ball as constructed: at (0, 2, -15.24), 25 degrees of spin per frame,
      90 mph (40.2336 m/s), no frame recorded yet. */
  const Initial: Ball := Ball(0.0, 2.0, -15.24, 0.0, 2.0, -15.24, 25.0, 40.2336, 0)

  /** Per frame the ball drifts 0.07 m down and 0.01 m sideways while in flight. */
  const Drop: real := 0.07
  const Drift: real := 0.01

  /** A second of rest at the plate before the ball goes back. */
  const HoldMillis: int := 1000

  /** The fields that describe the pitch rather than its progress. */
  predicate SameSetup(a: Ball, b: Ball) {
    a.origX == b.origX && a.origY == b.origY && a.origZ == b.origZ
    && a.degRot == b.degRot && a.speed == b.speed
  }

  predicate AtHome(b: Ball) {
    b.x == b.origX && b.y == b.origY && b.z == b.origZ
  }

  /** setBallCoords: current and original position become the same point. */
  function WithCoords(b: Ball, x: real, y: real, z: real): (r: Ball)
    ensures AtHome(r) && r.x == x && r.y == y && r.z == z
    ensures r.degRot == b.degRot && r.speed == b.speed && r.lastTime == b.lastTime
  {
    b.(x := x, y := y, z := z, origX := x, origY := y, origZ := z)
  }

  /** setBallSpeed. */
  function WithSpeed(b: Ball, speed: real): (r: Ball)
    ensures r.speed == speed && r == b.(speed := r.speed)
  {
    b.(speed := speed)
  }

  /** setBallRotation. */
  function WithRotation(b: Ball, rotation: real): (r: Ball)
    ensures r.degRot == rotation && r == b.(degRot := r.degRot)
  {
    b.(degRot := rotation)
  }

  /** One frame of `animate` at time `now`: the first frame only records the time; in
      flight (z < 0) the ball moves; at the plate it holds for under a second without
      recording the frame, and after that returns to its original position. */
  function Advance(b: Ball, now: int): (r: Ball)
    ensures SameSetup(r, b)
    ensures r.lastTime == b.lastTime || r.lastTime == now
  {
    if b.lastTime == 0 then b.(lastTime := now)
    else
      var elapsed := now - b.lastTime;
      if b.z < 0.0 then
        b.(z := b.z + b.speed * elapsed as real / 1000.0, y := b.y - Drop, x := b.x + Drift, lastTime := now)
      else if elapsed < HoldMillis then b
      else b.(x := b.origX, y := b.origY, z := b.origZ, lastTime := now)
  }

  /** Frames applied one after another. */
  function Run(b: Ball, times: seq<int>): Ball
    decreases |times|
  {
    if times == [] then b else Run(Advance(b, times[0]), times[1..])
  }

  /** Construction puts the ball at its original position. */
  lemma InitialAtHome()
    ensures AtHome(Initial) && Initial.lastTime == 0
    ensures Initial.x == 0.0 && Initial.y == 2.0 && Initial.z == -15.24 && Initial.speed == 40.2336
  {
  }

  /** The first frame leaves the position alone and only records the time. */
  lemma FirstFrameOnlyRecords(b: Ball, now: int)
    requires b.lastTime == 0
    ensures Advance(b, now) == b.(lastTime := now)
    ensures Advance(b, now).x == b.x && Advance(b, now).y == b.y && Advance(b, now).z == b.z
  {
  }

  /** In flight the ball covers speed * elapsed / 1000 metres towards the plate, drops
      by 0.07 and drifts by 0.01; with a positive speed and time moving forward it gets
      strictly closer to the plate. */
  lemma FlightStep(b: Ball, now: int)
    requires b.lastTime != 0 && b.z < 0.0
    ensures var r := Advance(b, now);
      && r.z == b.z + b.speed * (now - b.lastTime) as real / 1000.0
      && r.y == b.y - 0.07 && r.x == b.x + 0.01 && r.lastTime == now
    ensures b.speed > 0.0 && now > b.lastTime ==> Advance(b, now).z > b.z
  {
    if b.speed > 0.0 && now > b.lastTime {
      var elapsed := (now - b.lastTime) as real;
      assert b.speed * elapsed > 0.0;
    }
  }

  /** At the plate, a frame less than a second after the last recorded one changes
      nothing at all, not even the recorded time. */
  lemma HoldKeepsEverything(b: Ball, now: int)
    requires b.lastTime != 0 && b.z >= 0.0 && now - b.lastTime < 1000
    ensures Advance(b, now) == b
  {
  }

  /** At the plate, the first frame a second or more after the last recorded one sends
      the ball back to its original position and records the time. */
  lemma ResetReturnsHome(b: Ball, now: int)
    requires b.lastTime != 0 && b.z >= 0.0 && now - b.lastTime >= 1000
    ensures AtHome(Advance(b, now)) && Advance(b, now).lastTime == now
  {
  }

  /** setBallCoords, any flight, then a reset: the ball returns to the coordinates last
      set, because no frame changes the original position. */
  lemma ResetGoesToSetCoords(b: Ball, x: real, y: real, z: real, times: seq<int>, now: int)
    requires var m := Run(WithCoords(b, x, y, z), times);
      m.lastTime != 0 && m.z >= 0.0 && now - m.lastTime >= 1000
    ensures var r := Advance(Run(WithCoords(b, x, y, z), times), now);
      r.x == x && r.y == y && r.z == z
  {
    RunKeepsSetup(WithCoords(b, x, y, z), times);
  }

  /** No number of frames changes the pitch's setup. */
  lemma {:induction false} RunKeepsSetup(b: Ball, times: seq<int>)
    ensures SameSetup(Run(b, times), b)
    decreases |times|
  {
    if times != [] {
      RunKeepsSetup(Advance(b, times[0]), times[1..]);
    }
  }

  /** Once the ball has reached the plate it stays put through any run of frames that
      all fall within a second of the last recorded one. */
  lemma {:induction false} HeldAtPlate(b: Ball, times: seq<int>)
    requires b.lastTime != 0 && b.z >= 0.0
    requires forall k :: 0 <= k < |times| ==> times[k] - b.lastTime < 1000
    ensures Run(b, times) == b
    decreases |times|
  {
    if times != [] {
      HoldKeepsEverything(b, times[0]);
      HeldAtPlate(b, times[1..]);
    }
  }

  /** The whole cycle of a landed ball: held through every frame under a second, then
      back at its original position on the first frame after it. */
  lemma HoldThenReset(b: Ball, held: seq<int>, now: int)
    requires b.lastTime != 0 && b.z >= 0.0
    requires forall k :: 0 <= k < |held| ==> held[k] - b.lastTime < 1000
    requires now - b.lastTime >= 1000
    ensures AtHome(Run(b, held + [now])) && Run(b, held + [now]).lastTime == now
  {
    RunAppend(b, held, now);
    HeldAtPlate(b, held);
  }

  /** Running frames then one more is one more frame after the run. */
  lemma {:induction false} RunAppend(b: Ball, times: seq<int>, now: int)
    ensures Run(b, times + [now]) == Advance(Run(b, times), now)
    decreases |times|
  {
    if times == [] {
      assert times + [now] == [now];
    } else {
      assert (times + [now])[1..] == times[1..] + [now];
      RunAppend(Advance(b, times[0]), times[1..], now);
    }
  }

  /** The sphere of this ball: 60 latitude and 60 longitude bands. */
  const SphereBands: nat := 60

  /** The module-level vertex and index loops: 61 * 61 vertices with three normal, two
      texture and three position numbers each, and 6 * 60 * 60 indices, every one naming
      an existing vertex and fitting a Uint16 entry. */
  method BuildSphere() returns (normalLength: nat, textureLength: nat, positionLength: nat, indices: seq<int>)
    ensures normalLength == positionLength == 3 * 61 * 61 && textureLength == 2 * 61 * 61
    ensures |indices| == 6 * 60 * 60 == 21600
    ensures forall x :: x in indices ==> 0 <= x < 61 * 61 && x < 65536
  {
    normalLength, textureLength, positionLength, indices := Sphere.Mesh(SphereBands, SphereBands);
  }

  /** The ball object; its fields are updated in place by the setters and by `animate`. */
  class Pitch {
    var ballX: real
    var ballY: real
    var ballZ: real
    var origBallX: real
    var origBallY: real
    var origBallZ: real
    var ballDegRot: real
    var ballSpeed: real
    var lastTime: int

    function State(): Ball
      reads this
    {
      Ball(ballX, ballY, ballZ, origBallX, origBallY, origBallZ, ballDegRot, ballSpeed, lastTime)
    }

    /** The field values of the constructor; shaders and buffers are not modelled. */
    constructor ()
      ensures State() == Initial
    {
      origBallX := 0.0;
      origBallY := 2.0;
      origBallZ := -15.24;
      ballX := origBallX;
      ballY := origBallY;
      ballZ := origBallZ;
      ballDegRot := 25.0;
      ballSpeed := 40.2336;
      lastTime := 0;
    }

    method SetBallCoords(x: real, y: real, z: real)
      modifies this
      ensures State() == WithCoords(old(State()), x, y, z)
    {
      ballX := x;
      ballY := y;
      ballZ := z;
      origBallX := x;
      origBallY := y;
      origBallZ := z;
    }

    method SetBallSpeed(speed: real)
      modifies this
      ensures State() == WithSpeed(old(State()), speed)
    {
      ballSpeed := speed;
    }

    method SetBallRotation(rotation: real)
      modifies this
      ensures State() == WithRotation(old(State()), rotation)
    {
      ballDegRot := rotation;
    }

    method Animate(now: int)
      modifies this
      ensures State() == Advance(old(State()), now)
    {
      var setLastTime := true;
      if lastTime != 0 {
        var elapsed := now - lastTime;
        if ballZ < 0.0 {
          ballZ := ballZ + ballSpeed * elapsed as real / 1000.0;
          ballY := ballY - Drop;
          ballX := ballX + Drift;
        } else {
          if elapsed < HoldMillis {
            setLastTime := false;
          } else {
            ballX := origBallX;
            ballY := origBallY;
            ballZ := origBallZ;
          }
        }
      }
      if setLastTime {
        lastTime := now;
      }
    }
  }
}
