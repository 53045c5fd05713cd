/**
 * The per-frame flight update of `updateCockpitMovement` in script.js, as
 * pure functions of the state before the frame, together with what is proved
 * about them: velocity and throttle bounds, branch priority, exponential
 * damping, the throttle ramp, and how the cockpit is moved and the camera
 * shaken. Arithmetic is over the reals.
 */
module Flight {
  import opened Geometry
  import opened Controls

  // The constants of `updateCockpitMovement`.
  const DeltaTime: real := 1.0 / 60.0
  const PitchAcceleration: real := 0.1
  const RollAcceleration: real := 0.1
  const MaxPitchVelocity: real := 0.03
  const MaxRollVelocity: real := 0.03
  const PitchDamping: real := 0.9
  const RollDamping: real := 0.9
  /** Throttle percentage gained or lost per second while its key is held. */
  const ThrottleChangeSpeed: real := 20.0
  const MaxThrottle: real := 100.0
  /** Forward acceleration per throttle percent. */
  const ThrustPerPercent: real := 0.01
  const VelocityDamping: real := 0.99
  const ShakeIntensity: real := 0.1

  /**
   * The largest speed per axis the damped integrator can reach: at full
   * throttle it is the fixed point of `v = 0.99 * (v + DeltaTime)`.
   */
  const TerminalSpeed: real := 1.65

  function Min(a: real, b: real): (r: real)
    ensures r <= a && r <= b && (r == a || r == b)
  {
    if a <= b then a else b
  }

  function Max(a: real, b: real): (r: real)
    ensures r >= a && r >= b && (r == a || r == b)
  {
    if a >= b then a else b
  }

  /** `Math.min(cap, x + step)`: move up by `step`, never past `cap`. */
  function RampUp(x: real, step: real, cap: real): real {
    Min(cap, x + step)
  }

  /** `Math.max(floor, x - step)`: move down by `step`, never past `floor`. */
  function RampDown(x: real, step: real, floor: real): real {
    Max(floor, x - step)
  }

  /**
   * One axis of the attitude update: accelerate towards `+maxVelocity` while
   * the first key is held, else towards `-maxVelocity` while the opposite key
   * is held, else damp. `step` is the change in one frame, the axis's
   * angular acceleration times `DeltaTime`.
   */
  function AxisStep(v: real, positive: bool, negative: bool,
                    step: real, maxVelocity: real, damping: real): real
  {
    if positive then RampUp(v, step, maxVelocity)
    else if negative then RampDown(v, step, -maxVelocity)
    else v * damping
  }

  /** Pitch: S / down arrow (`pitchUp`) takes priority over W / up arrow (`pitchDown`). */
  function PitchStep(v: real, k: Keyboard): real {
    AxisStep(v, k.pitchUp, k.pitchDown, PitchAcceleration * DeltaTime, MaxPitchVelocity, PitchDamping)
  }

  /** Roll: A / left arrow (`rollLeft`) takes priority over D / right arrow (`rollRight`). */
  function RollStep(v: real, k: Keyboard): real {
    AxisStep(v, k.rollLeft, k.rollRight, RollAcceleration * DeltaTime, MaxRollVelocity, RollDamping)
  }

  /**
   * The throttle update: the two adjustments are independent `if`s, the
   * increase first, so both apply in that order when both keys are held.
   */
  function ThrottleStep(t: real, increasing: bool, decreasing: bool): real {
    var raised := if increasing then RampUp(t, ThrottleChangeSpeed * DeltaTime, MaxThrottle) else t;
    if decreasing then RampDown(raised, ThrottleChangeSpeed * DeltaTime, 0.0) else raised
  }

  /** The acceleration in the cockpit's own frame: straight ahead (local -Z). */
  function Thrust(throttle: real): Vec3 {
    Vec3(0.0, 0.0, -throttle * ThrustPerPercent)
  }

  /** The two `Math.random()` draws of a frame's camera shake. */
  datatype Draws = Draws(x: real, y: real)

  predicate IsRandomDraw(d: Draws) {
    0.0 <= d.x < 1.0 && 0.0 <= d.y < 1.0
  }

  /** The offset one draw adds to one camera axis: proportional to the throttle. */
  function ShakeOffset(r: real, throttle: real): real {
    (r - 0.5) * ShakeIntensity * (throttle / 100.0)
  }

  /** The camera shake: a random offset on the camera's X and Y, added to where it was. */
  function Shake(camera: Vec3, throttle: real, d: Draws): Vec3 {
    Vec3(camera.x + ShakeOffset(d.x, throttle), camera.y + ShakeOffset(d.y, throttle), camera.z)
  }

  /** What one frame reads and writes once the cockpit exists. */
  datatype Craft = Craft(
    pitchVelocity: real,
    rollVelocity: real,
    throttle: real,
    acceleration: Vec3,
    velocity: Vec3,
    position: Vec3,
    orientation: Orientation,
    camera: Vec3)

  /** One frame of `updateCockpitMovement` with the cockpit loaded. */
  function Tick(c: Craft, l: Latch, toWorld: (Orientation, Vec3) -> Vec3, d: Draws): Craft {
    var pitch := PitchStep(c.pitchVelocity, l.keyboard);
    var roll := RollStep(c.rollVelocity, l.keyboard);
    var orientation := RotateZ(RotateX(c.orientation, pitch), roll);
    var throttle := ThrottleStep(c.throttle, l.increasingThrottle, l.decreasingThrottle);
    var acceleration := Scale(DeltaTime, toWorld(orientation, Thrust(throttle)));
    var velocity := Scale(VelocityDamping, Add(c.velocity, acceleration));
    Craft(pitch, roll, throttle, acceleration, velocity, Add(c.position, velocity),
          orientation, Shake(c.camera, throttle, d))
  }

  /**
   * What one frame sees from outside the update: the latch as the key
   * listeners left it since the previous frame, and the frame's two draws.
   */
  datatype Frame = Frame(keys: Latch, draws: Draws)

  /** Frames in a row, each with its own keys and draws. */
  function Run(c: Craft, toWorld: (Orientation, Vec3) -> Vec3, frames: seq<Frame>): Craft
    decreases |frames|
  {
    if frames == [] then c
    else Run(Tick(c, frames[0].keys, toWorld, frames[0].draws), toWorld, frames[1..])
  }

  /** Every frame has the pitch keys `up` (S / down arrow) and `down` (W / up arrow) as given. */
  predicate PitchKeys(frames: seq<Frame>, up: bool, down: bool) {
    forall i :: 0 <= i < |frames| ==>
      frames[i].keys.keyboard.pitchUp == up && frames[i].keys.keyboard.pitchDown == down
  }

  /** Every frame has the roll keys `left` (A / left arrow) and `right` (D / right arrow) as given. */
  predicate RollKeys(frames: seq<Frame>, left: bool, right: bool) {
    forall i :: 0 <= i < |frames| ==>
      frames[i].keys.keyboard.rollLeft == left && frames[i].keys.keyboard.rollRight == right
  }

  /** Every frame has the throttle flags as given. */
  predicate ThrottleKeysHeld(frames: seq<Frame>, increasing: bool, decreasing: bool) {
    forall i :: 0 <= i < |frames| ==>
      frames[i].keys.increasingThrottle == increasing && frames[i].keys.decreasingThrottle == decreasing
  }

  /** The bounds every frame keeps. */
  predicate Bounded(c: Craft) {
    && -MaxPitchVelocity <= c.pitchVelocity <= MaxPitchVelocity
    && -MaxRollVelocity <= c.rollVelocity <= MaxRollVelocity
    && 0.0 <= c.throttle <= MaxThrottle
    && -TerminalSpeed <= c.velocity.x <= TerminalSpeed
    && -TerminalSpeed <= c.velocity.y <= TerminalSpeed
    && -TerminalSpeed <= c.velocity.z <= TerminalSpeed
  }

  // ---------------------------------------------------------------------
  // One axis of the attitude update
  // ---------------------------------------------------------------------

  /** An axis velocity within `[-maxVelocity, maxVelocity]` stays there, in every branch. */
  lemma AxisStepBounded(v: real, positive: bool, negative: bool,
                        step: real, maxVelocity: real, damping: real)
    requires step >= 0.0 && 0.0 <= damping <= 1.0
    requires -maxVelocity <= v <= maxVelocity
    ensures -maxVelocity <= AxisStep(v, positive, negative, step, maxVelocity, damping) <= maxVelocity
  {
    var r := AxisStep(v, positive, negative, step, maxVelocity, damping);
    if positive {
      assert r == Min(maxVelocity, v + step);
    } else if negative {
      assert r == Max(-maxVelocity, v - step);
    } else {
      DampingShrinks(v, damping);
      assert r == v * damping;
    }
  }

  /** Multiplying by a factor in `[0, 1]` moves a number towards zero without crossing it. */
  lemma DampingShrinks(v: real, damping: real)
    requires 0.0 <= damping <= 1.0
    ensures v >= 0.0 ==> 0.0 <= v * damping <= v
    ensures v <= 0.0 ==> v <= v * damping <= 0.0
  {
    if damping == 1.0 {
      assert v * damping == v;
    } else if v > 0.0 {
      MulShrinksPositive(v, damping);
    } else if v < 0.0 {
      MulShrinksNegative(v, damping);
    }
  }

  /** A factor in `[0, 1)` strictly shrinks any non-zero number. */
  lemma DampingStrict(v: real, damping: real)
    requires 0.0 <= damping < 1.0 && v != 0.0
    ensures Abs(v * damping) < Abs(v)
  {
    var p := v * damping;
    if v > 0.0 {
      MulShrinksPositive(v, damping);
      CloserToZero(p, v);
    } else {
      MulShrinksNegative(v, damping);
      CloserToZero(p, v);
    }
  }

  /** A number between zero and `v` (and not `v` itself) is smaller in magnitude than `v`. */
  lemma CloserToZero(p: real, v: real)
    requires 0.0 <= p < v || v < p <= 0.0
    ensures Abs(p) < Abs(v)
  {
  }

  /** Holding both keys of an axis acts as holding only the first, at any velocity. */
  lemma FirstKeyPriority(v: real, step: real, maxVelocity: real, damping: real)
    ensures AxisStep(v, true, true, step, maxVelocity, damping)
         == AxisStep(v, true, false, step, maxVelocity, damping)
  {
  }

  /**
   * Below the cap, the first key (alone or with the opposite one) accelerates
   * up; above the floor, the opposite key alone accelerates down; with
   * neither key held the velocity damps towards zero.
   */
  lemma AxisPriority(v: real, step: real, maxVelocity: real, damping: real)
    requires step > 0.0 && 0.0 <= damping < 1.0
    requires -maxVelocity < v < maxVelocity
    ensures AxisStep(v, true, true, step, maxVelocity, damping) > v
    ensures AxisStep(v, false, true, step, maxVelocity, damping) < v
    ensures v != 0.0 ==> Abs(AxisStep(v, false, false, step, maxVelocity, damping)) < Abs(v)
  {
    if v != 0.0 {
      DampingStrict(v, damping);
    }
  }

  /** One axis, `n` frames in a row with the same keys. */
  function AxisAfter(v: real, positive: bool, negative: bool,
                     step: real, maxVelocity: real, damping: real, n: nat): real
    decreases n
  {
    if n == 0 then v
    else AxisAfter(AxisStep(v, positive, negative, step, maxVelocity, damping),
                   positive, negative, step, maxVelocity, damping, n - 1)
  }

  function Pow(b: real, n: nat): real
    decreases n
  {
    if n == 0 then 1.0 else b * Pow(b, n - 1)
  }

  /** With neither key held the velocity after `n` frames is `v * damping^n`. */
  lemma {:induction false} IdleDecay(v: real, step: real, maxVelocity: real, damping: real, n: nat)
    ensures AxisAfter(v, false, false, step, maxVelocity, damping, n) == v * Pow(damping, n)
    decreases n
  {
    if n > 0 {
      IdleDecay(v * damping, step, maxVelocity, damping, n - 1);
      assert (v * damping) * Pow(damping, n - 1) == v * (damping * Pow(damping, n - 1));
    }
  }

  /** A damping factor in `(0, 1)` raised to `n > 0` stays in `(0, 1)`. */
  lemma {:induction false} PowInUnit(b: real, n: nat)
    requires 0.0 < b < 1.0
    ensures 0.0 < Pow(b, n) <= 1.0
    ensures n > 0 ==> Pow(b, n) < 1.0
    decreases n
  {
    if n > 0 {
      PowInUnit(b, n - 1);
      MulPositive(b, Pow(b, n - 1));
      MulBelow(Pow(b, n - 1), b);
    }
  }

  /**
   * Idle frames never flip the sign of the velocity, never make it larger,
   * never make it zero, and make it strictly smaller once a frame has passed.
   */
  lemma {:induction false} IdleSameSignShrinking(v: real, step: real, maxVelocity: real, damping: real, n: nat)
    requires 0.0 < damping < 1.0
    ensures var w := AxisAfter(v, false, false, step, maxVelocity, damping, n);
      && (v > 0.0 ==> 0.0 < w <= v)
      && (v < 0.0 ==> v <= w < 0.0)
      && (v == 0.0 ==> w == 0.0)
      && (n > 0 && v != 0.0 ==> Abs(w) < Abs(v))
  {
    IdleDecay(v, step, maxVelocity, damping, n);
    PowInUnit(damping, n);
    var p := Pow(damping, n);
    DampingShrinks(v, p);
    if v != 0.0 {
      ScaleKeepsSign(v, p);
      if n > 0 {
        DampingStrict(v, p);
      }
    }
  }

  /** A positive factor keeps the sign of a non-zero number. */
  lemma ScaleKeepsSign(v: real, p: real)
    requires p > 0.0 && v != 0.0
    ensures v > 0.0 ==> v * p > 0.0
    ensures v < 0.0 ==> v * p < 0.0
  {
    if v > 0.0 {
      MulPositive(v, p);
    } else {
      MulPositive(-v, p);
      assert (-v) * p == -(v * p);
    }
  }

  /**
   * Holding the first key for `n` frames adds `n` steps, capped at the
   * maximum, whatever the opposite key does.
   */
  lemma HeldRamp(v: real, negative: bool, step: real, maxVelocity: real, damping: real, n: nat)
    requires step >= 0.0 && v <= maxVelocity
    ensures AxisAfter(v, true, negative, step, maxVelocity, damping, n)
         == Min(maxVelocity, v + (n as real) * step)
  {
    HeldRampSteps(v, negative, step, maxVelocity, damping, n);
    StepsProduct(n, step);
  }

  /** `n` steps of `s`, added one at a time. */
  function Steps(n: nat, s: real): (r: real)
    ensures s >= 0.0 ==> r >= 0.0
    decreases n
  {
    if n == 0 then 0.0 else Steps(n - 1, s) + s
  }

  /** Adding `n` steps of `s` one at a time adds `n * s`. */
  lemma {:induction false} StepsProduct(n: nat, s: real)
    ensures Steps(n, s) == (n as real) * s
    decreases n
  {
    if n > 0 {
      StepsProduct(n - 1, s);
      assert ((n - 1) as real) * s + s == (n as real) * s;
    }
  }

  lemma {:induction false} HeldRampSteps(v: real, negative: bool, step: real, maxVelocity: real,
                                         damping: real, n: nat)
    requires step >= 0.0 && v <= maxVelocity
    ensures AxisAfter(v, true, negative, step, maxVelocity, damping, n)
         == Min(maxVelocity, v + Steps(n, step))
    decreases n
  {
    if n > 0 {
      var w := AxisStep(v, true, negative, step, maxVelocity, damping);
      assert w == Min(maxVelocity, v + step);
      assert AxisAfter(v, true, negative, step, maxVelocity, damping, n)
          == AxisAfter(w, true, negative, step, maxVelocity, damping, n - 1);
      HeldRampSteps(w, negative, step, maxVelocity, damping, n - 1);
      CappedSteps(v, w, step, Steps(n - 1, step), Steps(n, step), maxVelocity);
    }
  }

  /** Two capped moves up, by `s` and then by `rest`, are one capped move by their sum. */
  lemma CappedSteps(v: real, w: real, s: real, rest: real, total: real, cap: real)
    requires w == Min(cap, v + s)
    requires s >= 0.0 && rest >= 0.0 && total == rest + s && v <= cap
    ensures Min(cap, w + rest) == Min(cap, v + total)
  {
  }

  /**
   * Holding only the opposite key for `n` frames takes `n` steps down,
   * floored at the negative maximum.
   */
  lemma HeldRampDown(v: real, step: real, maxVelocity: real, damping: real, n: nat)
    requires step >= 0.0 && -maxVelocity <= v
    ensures AxisAfter(v, false, true, step, maxVelocity, damping, n)
         == Max(-maxVelocity, v - (n as real) * step)
  {
    HeldRampDownSteps(v, step, maxVelocity, damping, n);
    StepsProduct(n, step);
  }

  lemma {:induction false} HeldRampDownSteps(v: real, step: real, maxVelocity: real, damping: real, n: nat)
    requires step >= 0.0 && -maxVelocity <= v
    ensures AxisAfter(v, false, true, step, maxVelocity, damping, n)
         == Max(-maxVelocity, v - Steps(n, step))
    decreases n
  {
    if n > 0 {
      var w := AxisStep(v, false, true, step, maxVelocity, damping);
      assert w == Max(-maxVelocity, v - step);
      assert AxisAfter(v, false, true, step, maxVelocity, damping, n)
          == AxisAfter(w, false, true, step, maxVelocity, damping, n - 1);
      HeldRampDownSteps(w, step, maxVelocity, damping, n - 1);
      FlooredSteps(v, w, step, Steps(n - 1, step), Steps(n, step), -maxVelocity);
    }
  }

  /** Two floored moves down, by `s` and then by `rest`, are one floored move by their sum. */
  lemma FlooredSteps(v: real, w: real, s: real, rest: real, total: real, floor: real)
    requires w == Max(floor, v - s)
    requires s >= 0.0 && rest >= 0.0 && total == rest + s && floor <= v
    ensures Max(floor, w - rest) == Max(floor, v - total)
  {
  }

  // ---------------------------------------------------------------------
  // Throttle
  // ---------------------------------------------------------------------

  /** The throttle stays within `[0, 100]`. */
  lemma ThrottleStepBounded(t: real, increasing: bool, decreasing: bool)
    requires 0.0 <= t <= MaxThrottle
    ensures 0.0 <= ThrottleStep(t, increasing, decreasing) <= MaxThrottle
  {
  }

  /**
   * Each key alone moves the throttle by a third of a percent per frame
   * (20 percent per second at 60 frames per second), clamped; with both
   * held the increase applies first and the decrease second, so the throttle
   * stays put below `100 - 1/3` and settles at `100 - 1/3` above it.
   */
  lemma ThrottleKeys(t: real)
    requires 0.0 <= t <= MaxThrottle
    ensures ThrottleStep(t, true, false) == Min(MaxThrottle, t + 1.0 / 3.0)
    ensures ThrottleStep(t, false, true) == Max(0.0, t - 1.0 / 3.0)
    ensures ThrottleStep(t, false, false) == t
    ensures t <= MaxThrottle - 1.0 / 3.0 ==> ThrottleStep(t, true, true) == t
    ensures t > MaxThrottle - 1.0 / 3.0 ==> ThrottleStep(t, true, true) == MaxThrottle - 1.0 / 3.0
  {
  }

  /** The throttle, `n` frames in a row with the same keys. */
  function ThrottleAfter(t: real, increasing: bool, decreasing: bool, n: nat): real
    decreases n
  {
    if n == 0 then t else ThrottleAfter(ThrottleStep(t, increasing, decreasing), increasing, decreasing, n - 1)
  }

  /** Holding only the increase key for `n` frames raises the throttle by `n/3`, up to 100. */
  lemma {:induction false} ThrottleRamp(t: real, n: nat)
    requires 0.0 <= t <= MaxThrottle
    ensures ThrottleAfter(t, true, false, n) == Min(MaxThrottle, t + (n as real) / 3.0)
    decreases n
  {
    if n > 0 {
      ThrottleRamp(Min(MaxThrottle, t + 1.0 / 3.0), n - 1);
    }
  }

  /** Holding only the decrease key for `n` frames lowers the throttle by `n/3`, down to 0. */
  lemma {:induction false} ThrottleDrop(t: real, n: nat)
    requires 0.0 <= t <= MaxThrottle
    ensures ThrottleAfter(t, false, true, n) == Max(0.0, t - (n as real) / 3.0)
    decreases n
  {
    if n > 0 {
      ThrottleDrop(Max(0.0, t - 1.0 / 3.0), n - 1);
    }
  }

  /** From zero, five seconds (300 frames) of increase reach full throttle, and not a frame sooner. */
  lemma FullThrottleAfterFiveSeconds()
    ensures ThrottleAfter(0.0, true, false, 300) == MaxThrottle
    ensures ThrottleAfter(0.0, true, false, 299) < MaxThrottle
  {
    ThrottleRamp(0.0, 300);
    ThrottleRamp(0.0, 299);
  }

  // ---------------------------------------------------------------------
  // Translation and camera shake
  // ---------------------------------------------------------------------

  /** The world-frame thrust is no longer than the throttle allows, along every axis. */
  lemma ThrustBound(toWorld: (Orientation, Vec3) -> Vec3, o: Orientation, throttle: real)
    requires IsRotation(toWorld) && 0.0 <= throttle
    ensures var a := toWorld(o, Thrust(throttle)); var m := throttle * ThrustPerPercent;
      -m <= a.x <= m && -m <= a.y <= m && -m <= a.z <= m
  {
    var m := throttle * ThrustPerPercent;
    SquareAbs(m);
    assert Norm2(Thrust(throttle)) == Sq(m);
    ComponentBound(toWorld(o, Thrust(throttle)), m);
  }

  /** One axis of the damped velocity update cannot leave `[-TerminalSpeed, TerminalSpeed]`. */
  lemma VelocityComponentBounded(v: real, a: real)
    requires -TerminalSpeed <= v <= TerminalSpeed && -1.0 <= a <= 1.0
    ensures -TerminalSpeed <= VelocityDamping * (v + DeltaTime * a) <= TerminalSpeed
  {
  }

  /** A frame keeps every bound: angular velocities, throttle and velocity. */
  lemma TickBounded(c: Craft, l: Latch, toWorld: (Orientation, Vec3) -> Vec3, d: Draws)
    requires Bounded(c) && IsRotation(toWorld)
    ensures Bounded(Tick(c, l, toWorld, d))
  {
    var k := l.keyboard;
    AxisStepBounded(c.pitchVelocity, k.pitchUp, k.pitchDown, PitchAcceleration * DeltaTime, MaxPitchVelocity, PitchDamping);
    AxisStepBounded(c.rollVelocity, k.rollLeft, k.rollRight, RollAcceleration * DeltaTime, MaxRollVelocity, RollDamping);
    var t := ThrottleStep(c.throttle, l.increasingThrottle, l.decreasingThrottle);
    ThrottleStepBounded(c.throttle, l.increasingThrottle, l.decreasingThrottle);
    var o := RotateZ(RotateX(c.orientation, PitchStep(c.pitchVelocity, k)), RollStep(c.rollVelocity, k));
    var a := toWorld(o, Thrust(t));
    ThrustBound(toWorld, o, t);
    VelocityComponentBounded(c.velocity.x, a.x);
    VelocityComponentBounded(c.velocity.y, a.y);
    VelocityComponentBounded(c.velocity.z, a.z);
  }

  /** Any number of frames keeps every bound, whatever key events happen between them. */
  lemma {:induction false} RunBounded(c: Craft, toWorld: (Orientation, Vec3) -> Vec3, frames: seq<Frame>)
    requires Bounded(c) && IsRotation(toWorld)
    ensures Bounded(Run(c, toWorld, frames))
    decreases |frames|
  {
    if frames != [] {
      TickBounded(c, frames[0].keys, toWorld, frames[0].draws);
      RunBounded(Tick(c, frames[0].keys, toWorld, frames[0].draws), toWorld, frames[1..]);
    }
  }

  /**
   * The cockpit moves by exactly its new velocity; the orientation gains a
   * pitch turn and then a roll turn by the new angular velocities; the
   * camera only shakes sideways and vertically.
   */
  lemma TickMoves(c: Craft, l: Latch, toWorld: (Orientation, Vec3) -> Vec3, d: Draws)
    ensures var n := Tick(c, l, toWorld, d);
      && n.position == Add(c.position, n.velocity)
      && n.orientation == c.orientation + [Turn(X, n.pitchVelocity), Turn(Z, n.rollVelocity)]
      && n.camera.z == c.camera.z
  {
  }

  /** With the throttle at zero after the frame, the velocity is only damped by 0.99. */
  lemma CoastAtZeroThrottle(c: Craft, l: Latch, toWorld: (Orientation, Vec3) -> Vec3, d: Draws)
    requires IsRotation(toWorld)
    requires ThrottleStep(c.throttle, l.increasingThrottle, l.decreasingThrottle) == 0.0
    ensures Tick(c, l, toWorld, d).velocity == Scale(VelocityDamping, c.velocity)
    ensures Tick(c, l, toWorld, d).acceleration == Zero
  {
    var k := l.keyboard;
    var o := RotateZ(RotateX(c.orientation, PitchStep(c.pitchVelocity, k)), RollStep(c.rollVelocity, k));
    ThrustBound(toWorld, o, 0.0);
    var a := toWorld(o, Thrust(0.0));
    assert a == Zero;
    assert Scale(DeltaTime, a) == Zero;
    assert Add(c.velocity, Zero) == c.velocity;
  }

  /** A frame moves the camera by at most `0.05 * throttle / 100` along X and along Y. */
  lemma ShakeBounded(camera: Vec3, throttle: real, d: Draws)
    requires IsRandomDraw(d) && 0.0 <= throttle <= MaxThrottle
    ensures var s := Shake(camera, throttle, d); var m := 0.05 * (throttle / 100.0);
      && -m <= s.x - camera.x <= m
      && -m <= s.y - camera.y <= m
      && s.z == camera.z
  {
    ShakeOffsetBounded(d.x, throttle);
    ShakeOffsetBounded(d.y, throttle);
  }

  /** One shaken axis: a draw in `[0, 1)` moves it by at most `0.05 * throttle / 100` either way. */
  lemma ShakeOffsetBounded(r: real, throttle: real)
    requires 0.0 <= r < 1.0 && 0.0 <= throttle
    ensures -(0.05 * (throttle / 100.0)) <= ShakeOffset(r, throttle) <= 0.05 * (throttle / 100.0)
  {
    var q := throttle / 100.0;
    var e := r - 0.5;
    MulMono(q, e, 0.5);
    MulMono(q, -0.5, e);
    assert q * 0.5 == q / 2.0 && q * -0.5 == -q / 2.0;
    assert ShakeOffset(r, throttle) == (e * ShakeIntensity) * q;
    assert e * ShakeIntensity == 0.1 * e;
    assert (0.1 * e) * q == 0.1 * (q * e);
    assert -(q / 2.0) <= q * e <= q / 2.0;
    assert ShakeOffset(r, throttle) == 0.1 * (q * e);
    assert 0.05 * (throttle / 100.0) == 0.1 * (q / 2.0);
  }

  // ---------------------------------------------------------------------
  // Several frames of the whole update
  // ---------------------------------------------------------------------

  /** Over several frames, the pitch velocity depends only on the pitch keys. */
  lemma {:induction false} RunPitch(c: Craft, toWorld: (Orientation, Vec3) -> Vec3, frames: seq<Frame>,
                                    up: bool, down: bool)
    requires PitchKeys(frames, up, down)
    ensures Run(c, toWorld, frames).pitchVelocity
         == AxisAfter(c.pitchVelocity, up, down, PitchAcceleration * DeltaTime, MaxPitchVelocity, PitchDamping, |frames|)
    decreases |frames|
  {
    if frames != [] {
      assert PitchKeys(frames[1..], up, down) by {
        forall i | 0 <= i < |frames| - 1 ensures frames[1..][i] == frames[i + 1] { }
      }
      RunPitch(Tick(c, frames[0].keys, toWorld, frames[0].draws), toWorld, frames[1..], up, down);
    }
  }

  /** Over several frames, the roll velocity depends only on the roll keys. */
  lemma {:induction false} RunRoll(c: Craft, toWorld: (Orientation, Vec3) -> Vec3, frames: seq<Frame>,
                                   left: bool, right: bool)
    requires RollKeys(frames, left, right)
    ensures Run(c, toWorld, frames).rollVelocity
         == AxisAfter(c.rollVelocity, left, right, RollAcceleration * DeltaTime, MaxRollVelocity, RollDamping, |frames|)
    decreases |frames|
  {
    if frames != [] {
      assert RollKeys(frames[1..], left, right) by {
        forall i | 0 <= i < |frames| - 1 ensures frames[1..][i] == frames[i + 1] { }
      }
      RunRoll(Tick(c, frames[0].keys, toWorld, frames[0].draws), toWorld, frames[1..], left, right);
    }
  }

  /** Over several frames, the throttle depends only on the throttle keys. */
  lemma {:induction false} RunThrottle(c: Craft, toWorld: (Orientation, Vec3) -> Vec3, frames: seq<Frame>,
                                       increasing: bool, decreasing: bool)
    requires ThrottleKeysHeld(frames, increasing, decreasing)
    ensures Run(c, toWorld, frames).throttle == ThrottleAfter(c.throttle, increasing, decreasing, |frames|)
    decreases |frames|
  {
    if frames != [] {
      assert ThrottleKeysHeld(frames[1..], increasing, decreasing) by {
        forall i | 0 <= i < |frames| - 1 ensures frames[1..][i] == frames[i + 1] { }
      }
      RunThrottle(Tick(c, frames[0].keys, toWorld, frames[0].draws), toWorld, frames[1..], increasing, decreasing);
    }
  }

  /** With no pitch key held, the pitch velocity after `n` frames is `v * 0.9^n`, shrinking towards zero. */
  lemma IdlePitch(c: Craft, toWorld: (Orientation, Vec3) -> Vec3, frames: seq<Frame>)
    requires PitchKeys(frames, false, false)
    ensures var w := Run(c, toWorld, frames).pitchVelocity;
      && w == c.pitchVelocity * Pow(PitchDamping, |frames|)
      && (|frames| > 0 && c.pitchVelocity != 0.0 ==> 0.0 < Abs(w) < Abs(c.pitchVelocity))
  {
    RunPitch(c, toWorld, frames, false, false);
    IdleDecay(c.pitchVelocity, PitchAcceleration * DeltaTime, MaxPitchVelocity, PitchDamping, |frames|);
    IdleSameSignShrinking(c.pitchVelocity, PitchAcceleration * DeltaTime, MaxPitchVelocity, PitchDamping, |frames|);
  }

  /** With no roll key held, the roll velocity after `n` frames is `v * 0.9^n`, shrinking towards zero. */
  lemma IdleRoll(c: Craft, toWorld: (Orientation, Vec3) -> Vec3, frames: seq<Frame>)
    requires RollKeys(frames, false, false)
    ensures var w := Run(c, toWorld, frames).rollVelocity;
      && w == c.rollVelocity * Pow(RollDamping, |frames|)
      && (|frames| > 0 && c.rollVelocity != 0.0 ==> 0.0 < Abs(w) < Abs(c.rollVelocity))
  {
    RunRoll(c, toWorld, frames, false, false);
    IdleDecay(c.rollVelocity, RollAcceleration * DeltaTime, MaxRollVelocity, RollDamping, |frames|);
    IdleSameSignShrinking(c.rollVelocity, RollAcceleration * DeltaTime, MaxRollVelocity, RollDamping, |frames|);
  }

  /** Holding S or the down arrow for 36 frames takes the pitch velocity from `-0.03` to `+0.03`. */
  lemma FullPitchSwing(c: Craft, toWorld: (Orientation, Vec3) -> Vec3, frames: seq<Frame>, down: bool)
    requires PitchKeys(frames, true, down) && c.pitchVelocity == -MaxPitchVelocity && |frames| == 36
    ensures Run(c, toWorld, frames).pitchVelocity == MaxPitchVelocity
  {
    RunPitch(c, toWorld, frames, true, down);
    HeldRamp(c.pitchVelocity, down, PitchAcceleration * DeltaTime, MaxPitchVelocity, PitchDamping, 36);
  }

}
