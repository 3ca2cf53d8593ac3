/** The closed-form trajectory of one pitch (the kinematic part of src/pitch.ts).

    Positions are in metres, time in seconds. The release-measurement origin is
    y = 0 at the point 50 feet from home plate's tip; the ball travels towards
    smaller y. All arithmetic is exact over the reals. */
module Trajectory {
  import opened Units

  /** Raw telemetry of one pitch, in feet, feet per second and feet per second squared,
      as the tracking feed delivers it: release point, release velocity, constant
      acceleration, and the batter's strike-zone bottom and top. */
  datatype Telemetry = Telemetry(
    x0: real, y0: real, z0: real,
    vx0: real, vy0: real, vz0: real,
    ax: real, ay: real, az: real,
    szBot: real, szTop: real)

  /** The coefficients the pitch keeps after conversion to metres. */
  datatype Kinematics = Kinematics(
    x0: real, y0: real, z0: real,
    vx0: real, vy0: real, vz0: real,
    ax: real, ay: real, az: real)

  datatype Vec3 = Vec3(x: real, y: real, z: real)

  /** Distance in metres from y = 0 to the front edge of home plate (1.417 feet). */
  const PlateFront: real := 1.417 * 0.3048

  /** Every kinematic field converted from feet with convertFeetVal. */
  function ToKinematics(t: Telemetry): (k: Kinematics)
    ensures k.x0 / MetersPerFoot == t.x0 && k.y0 / MetersPerFoot == t.y0 && k.z0 / MetersPerFoot == t.z0
    ensures k.vx0 / MetersPerFoot == t.vx0 && k.vy0 / MetersPerFoot == t.vy0 && k.vz0 / MetersPerFoot == t.vz0
    ensures k.ax / MetersPerFoot == t.ax && k.ay / MetersPerFoot == t.ay && k.az / MetersPerFoot == t.az
  {
    Kinematics(
      ConvertFeetVal(t.x0), ConvertFeetVal(t.y0), ConvertFeetVal(t.z0),
      ConvertFeetVal(t.vx0), ConvertFeetVal(t.vy0), ConvertFeetVal(t.vz0),
      ConvertFeetVal(t.ax), ConvertFeetVal(t.ay), ConvertFeetVal(t.az))
  }

  /** Uniformly accelerated motion along one axis: p0 + v0 t + a t^2 / 2. What the
      polynomial means for the pitch is stated by SpeedAtPlate and ReachesPlate. */
  function Displacement(p0: real, v0: real, a: real, t: real): (p: real)
    ensures t == 0.0 ==> p == p0
  {
    p0 + v0 * t + 0.5 * a * (t * t)
  }

  /** The release point. */
  function Release(k: Kinematics): Vec3 {
    Vec3(k.x0, k.y0, k.z0)
  }

  /** The ball's position t seconds after release, componentwise. */
  function PositionAt(k: Kinematics, t: real): (p: Vec3)
    ensures t == 0.0 ==> p == Release(k)
  {
    Vec3(Displacement(k.x0, k.vx0, k.ax, t),
         Displacement(k.y0, k.vy0, k.ay, t),
         Displacement(k.z0, k.vz0, k.az, t))
  }

  /** vy0^2 + 2 ay (PlateFront - y0): the square of the along-track speed at the plate. */
  function Discriminant(k: Kinematics): real {
    k.vy0 * k.vy0 + 2.0 * k.ay * (PlateFront - k.y0)
  }

  /** Whenever the along-track polynomial reaches the plate front, the speed there,
      vy0 + ay t, squares to the discriminant. */
  lemma {:induction false} SpeedAtPlate(k: Kinematics, t: real)
    requires PositionAt(k, t).y == PlateFront
    ensures (k.vy0 + k.ay * t) * (k.vy0 + k.ay * t) == Discriminant(k)
  {
    var v, a := k.vy0, k.ay;
    assert PlateFront - k.y0 == v * t + 0.5 * a * (t * t);
    calc {
      Discriminant(k);
      v * v + 2.0 * a * (v * t + 0.5 * a * (t * t));
      v * v + 2.0 * (a * t) * v + (a * t) * (a * t);
      (v + a * t) * (v + a * t);
    }
  }

  /** endSpeed = -Math.sqrt(Discriminant): the non-positive square root, which exists
      only for a non-negative discriminant. The source divides by ay afterwards, so a
      usable end speed also needs ay to be non-zero. */
  predicate IsEndSpeed(k: Kinematics, endSpeed: real)
    ensures IsEndSpeed(k, endSpeed) ==> Discriminant(k) >= 0.0
  {
    k.ay != 0.0 && endSpeed <= 0.0 && endSpeed * endSpeed == Discriminant(k)
  }

  /** The flight time from release to the front of the plate: (endSpeed - vy0) / ay. */
  function PitchTime(k: Kinematics, endSpeed: real): (t: real)
    requires k.ay != 0.0
    ensures k.vy0 + k.ay * t == endSpeed
  {
    (endSpeed - k.vy0) / k.ay
  }

  /** The along-track displacement over time T is T (v0 + e) / 2 when a T = e - v0. */
  lemma {:induction false} MeanSpeedDisplacement(v: real, a: real, e: real, t: real)
    requires a * t == e - v
    ensures v * t + 0.5 * a * (t * t) == 0.5 * t * (v + e)
  {
    calc {
      v * t + 0.5 * a * (t * t);
      v * t + 0.5 * (a * t) * t;
      v * t + 0.5 * (e - v) * t;
      0.5 * t * (v + e);
    }
  }

  /** At t = pitchTime the ball lies exactly on the plate-front plane. */
  lemma {:induction false} ReachesPlate(k: Kinematics, endSpeed: real)
    requires IsEndSpeed(k, endSpeed)
    ensures PositionAt(k, PitchTime(k, endSpeed)).y == PlateFront
  {
    var v, a, e := k.vy0, k.ay, endSpeed;
    var t := PitchTime(k, e);
    assert a * t == e - v;
    MeanSpeedDisplacement(v, a, e, t);
    calc {
      0.5 * t * (v + e);
      0.5 * ((e - v) / a) * (v + e);
      0.5 * ((e - v) * (e + v)) / a;
      0.5 * (e * e - v * v) / a;
      { assert e * e - v * v == 2.0 * a * (PlateFront - k.y0); }
      0.5 * (2.0 * a * (PlateFront - k.y0)) / a;
      PlateFront - k.y0;
    }
  }

  /** Of two non-positive numbers, the one with the smaller square is the larger. */
  lemma {:induction false} SmallerSquareIsLarger(e: real, v: real)
    requires e <= 0.0 && v < 0.0 && e * e < v * v
    ensures e > v
  {
  }

  /** A pitch released above the plate plane, moving towards it and slowed by drag
      (ay > 0), has a strictly positive flight time. */
  lemma {:induction false} FlightTimePositive(k: Kinematics, endSpeed: real)
    requires IsEndSpeed(k, endSpeed)
    requires k.vy0 < 0.0 && k.ay > 0.0 && k.y0 > PlateFront
    ensures PitchTime(k, endSpeed) > 0.0
  {
    assert k.ay * (PlateFront - k.y0) < 0.0;
    assert endSpeed * endSpeed < k.vy0 * k.vy0;
    SmallerSquareIsLarger(endSpeed, k.vy0);
    assert endSpeed - k.vy0 > 0.0;
  }

  /** The first pitch of the demo sequence (a called-strike four-seam fastball), in feet. */
  const DemoFastball: Telemetry := Telemetry(
    -2.63882885225069, 50.0, 5.4892058201326,
    5.87417563225145, -134.263367616907, -6.81677604734278,
    -4.4649919045496, 28.6466265518902, -17.9792322436286,
    1.609173571993658, 3.548343822624041)

  /** For the demo fastball, the host's end speed gives a positive flight time after
      which the ball sits on the plate-front plane. */
  lemma DemoFastballArrives(endSpeed: real)
    requires IsEndSpeed(ToKinematics(DemoFastball), endSpeed)
    ensures PitchTime(ToKinematics(DemoFastball), endSpeed) > 0.0
    ensures PositionAt(ToKinematics(DemoFastball), PitchTime(ToKinematics(DemoFastball), endSpeed)).y == PlateFront
  {
    var k := ToKinematics(DemoFastball);
    FlightTimePositive(k, endSpeed);
    ReachesPlate(k, endSpeed);
  }
}
