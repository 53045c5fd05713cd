/**
 * The module state of script.js and the handlers that change it in place:
 * the `keydown` and `keyup` listeners, the per-frame
 * `updateCockpitMovement`, the cockpit model's load callback and the
 * name lookup of `focusOnPlanet`.
 *
 * The cockpit node's `position`, its quaternion and the camera's position
 * are fields here; `cockpitLoaded` stands for `cockpit` being defined.
 */
module CosmicView {
  import opened Options
  import opened Geometry
  import opened Controls
  import opened Flight
  import opened Planets

  class Simulation {
    var keyboard: Keyboard
    var increasingThrottle: bool
    var decreasingThrottle: bool

    var cockpitLoaded: bool
    var pitchVelocity: real
    var rollVelocity: real
    var throttle: real
    var acceleration: Vec3
    var velocity: Vec3
    var position: Vec3
    var orientation: Orientation
    var camera: Vec3

    const planets: seq<Planet>
    var focusedPlanet: Option<Planet>

    /** The flags the key handlers write. */
    function Keys(): Latch
      reads this
    {
      Latch(keyboard, increasingThrottle, decreasingThrottle)
    }

    /** The state the frame update reads and writes. */
    function State(): Craft
      reads this
    {
      Craft(pitchVelocity, rollVelocity, throttle, acceleration, velocity, position, orientation, camera)
    }

    ghost predicate Valid()
      reads this
    {
      Bounded(State()) && DistinctNames(planets)
    }

    /** The script's start-up: every flag clear, nothing moving, no cockpit yet, no planet in focus. */
    constructor ()
      ensures Valid()
      ensures Keys() == Released
      ensures !cockpitLoaded && focusedPlanet == None
      ensures pitchVelocity == 0.0 && rollVelocity == 0.0 && throttle == 0.0
      ensures velocity == Zero && acceleration == Zero
      ensures planets == CreatePlanets(SolarSystemPlanets)
    {
      keyboard := Keyboard(false, false, false, false, false, false);
      increasingThrottle, decreasingThrottle := false, false;
      cockpitLoaded := false;
      pitchVelocity, rollVelocity, throttle := 0.0, 0.0, 0.0;
      acceleration, velocity := Zero, Zero;
      position, orientation, camera := Zero, [], Zero;
      planets := CreatePlanets(SolarSystemPlanets);
      focusedPlanet := None;
      SolarSystemNamesDistinct();
    }

    /** The `keydown` listener: sets the flag the code's case label drives, if any. */
    method KeyDown(code: string)
      requires Valid()
      modifies this`keyboard, this`increasingThrottle, this`decreasingThrottle
      ensures Valid()
      ensures Keys() == Press(old(Keys()), code)
    {
      match ActionOf(code)
      case Some(PitchDown) => keyboard := keyboard.(pitchDown := true);
      case Some(PitchUp) => keyboard := keyboard.(pitchUp := true);
      case Some(RollLeft) => keyboard := keyboard.(rollLeft := true);
      case Some(RollRight) => keyboard := keyboard.(rollRight := true);
      case Some(IncreaseThrottle) => increasingThrottle := true;
      case Some(DecreaseThrottle) => decreasingThrottle := true;
      case None =>
    }

    /** The `keyup` listener: clears the flag the code's case label drives, if any. */
    method KeyUp(code: string)
      requires Valid()
      modifies this`keyboard, this`increasingThrottle, this`decreasingThrottle
      ensures Valid()
      ensures Keys() == Release(old(Keys()), code)
    {
      match ActionOf(code)
      case Some(PitchDown) => keyboard := keyboard.(pitchDown := false);
      case Some(PitchUp) => keyboard := keyboard.(pitchUp := false);
      case Some(RollLeft) => keyboard := keyboard.(rollLeft := false);
      case Some(RollRight) => keyboard := keyboard.(rollRight := false);
      case Some(IncreaseThrottle) => increasingThrottle := false;
      case Some(DecreaseThrottle) => decreasingThrottle := false;
      case None =>
    }

    /**
     * The load callback of the cockpit model: from now on the frame update
     * runs. The new node sits at the origin in its loaded pose, and the
     * camera is placed at the origin of its pivot inside the cockpit.
     */
    method LoadCockpit()
      requires Valid()
      modifies this`cockpitLoaded, this`position, this`orientation, this`camera
      ensures Valid()
      ensures cockpitLoaded && position == Zero && orientation == [] && camera == Zero
    {
      cockpitLoaded := true;
      position := Zero;
      orientation := [];
      camera := Zero;
    }

    /**
     * `updateCockpitMovement`. `toWorld` is what `applyQuaternion` does with
     * the cockpit's quaternion; `draws` are the frame's two `Math.random()`
     * values. Nothing changes before the cockpit has loaded.
     */
    method UpdateCockpitMovement(toWorld: (Orientation, Vec3) -> Vec3, draws: Draws)
      requires Valid() && IsRotation(toWorld) && IsRandomDraw(draws)
      modifies this`pitchVelocity, this`rollVelocity, this`throttle, this`acceleration
      modifies this`velocity, this`position, this`orientation, this`camera
      ensures Valid()
      ensures !cockpitLoaded ==> unchanged(this)
      ensures cockpitLoaded ==> State() == Tick(old(State()), Keys(), toWorld, draws)
    {
      if !cockpitLoaded {
        return;
      }
      ghost var before := State();
      Steer();
      AdjustThrottle();
      Propel(toWorld);
      ShakeCamera(draws);
      ghost var after := Tick(before, Keys(), toWorld, draws);
      assert pitchVelocity == after.pitchVelocity && rollVelocity == after.rollVelocity;
      assert throttle == after.throttle && orientation == after.orientation;
      assert acceleration == after.acceleration && velocity == after.velocity;
      assert position == after.position && camera == after.camera;
      TickBounded(before, Keys(), toWorld, draws);
    }

    /** The attitude part of the frame: each axis speeds up, slows down or decays, then the node turns. */
    method Steer()
      modifies this`pitchVelocity, this`rollVelocity, this`orientation
      ensures pitchVelocity == PitchStep(old(pitchVelocity), keyboard)
      ensures rollVelocity == RollStep(old(rollVelocity), keyboard)
      ensures orientation == RotateZ(RotateX(old(orientation), pitchVelocity), rollVelocity)
    {
      if keyboard.pitchUp {
        pitchVelocity := Min(MaxPitchVelocity, pitchVelocity + PitchAcceleration * DeltaTime);
      } else if keyboard.pitchDown {
        pitchVelocity := Max(-MaxPitchVelocity, pitchVelocity - PitchAcceleration * DeltaTime);
      } else {
        pitchVelocity := pitchVelocity * PitchDamping;
      }

      if keyboard.rollLeft {
        rollVelocity := Min(MaxRollVelocity, rollVelocity + RollAcceleration * DeltaTime);
      } else if keyboard.rollRight {
        rollVelocity := Max(-MaxRollVelocity, rollVelocity - RollAcceleration * DeltaTime);
      } else {
        rollVelocity := rollVelocity * RollDamping;
      }

      orientation := RotateX(orientation, pitchVelocity);
      orientation := RotateZ(orientation, rollVelocity);
    }

    /** The throttle part of the frame: raise, then lower, each within its limit. */
    method AdjustThrottle()
      modifies this`throttle
      ensures throttle == ThrottleStep(old(throttle), increasingThrottle, decreasingThrottle)
    {
      if increasingThrottle {
        throttle := Min(MaxThrottle, throttle + ThrottleChangeSpeed * DeltaTime);
      }
      if decreasingThrottle {
        throttle := Max(0.0, throttle - ThrottleChangeSpeed * DeltaTime);
      }
    }

    /** The translation part of the frame: thrust along the nose, then damping, then the move. */
    method Propel(toWorld: (Orientation, Vec3) -> Vec3)
      modifies this`acceleration, this`velocity, this`position
      ensures acceleration == Scale(DeltaTime, toWorld(orientation, Thrust(throttle)))
      ensures velocity == Scale(VelocityDamping, Add(old(velocity), acceleration))
      ensures position == Add(old(position), velocity)
    {
      acceleration := Thrust(throttle);
      acceleration := toWorld(orientation, acceleration);
      acceleration := Scale(DeltaTime, acceleration);
      velocity := Add(velocity, acceleration);
      velocity := Scale(VelocityDamping, velocity);
      position := Add(position, velocity);
    }

    /** The camera shake of the frame, one draw per axis. */
    method ShakeCamera(draws: Draws)
      modifies this`camera
      ensures camera == Shake(old(camera), throttle, draws)
    {
      camera := camera.(x := camera.x + ShakeOffset(draws.x, throttle));
      camera := camera.(y := camera.y + ShakeOffset(draws.y, throttle));
    }

    /**
     * `focusOnPlanet`: focuses the first planet with the given name. When no
     * planet has that name it reports so and leaves the focus and the camera
     * as they were. On a hit the camera is moved next to the planet; where
     * it goes is not modelled, so `camera` is then left unconstrained.
     */
    method FocusOnPlanet(name: string) returns (found: bool)
      requires Valid()
      modifies this`focusedPlanet, this`camera
      ensures Valid()
      ensures found <==> exists i :: 0 <= i < |planets| && planets[i].name == name
      ensures found ==> focusedPlanet.Some? && focusedPlanet.value in planets
                        && focusedPlanet.value.name == name
      ensures !found ==> focusedPlanet == old(focusedPlanet) && camera == old(camera)
    {
      var index := FindByName(planets, name);
      if index.None? {
        found := false;
        return;
      }
      focusedPlanet := Some(planets[index.value]);
      found := true;
    }
  }

}
