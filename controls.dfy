/**
 * The keyboard latch of script.js: the `keyboard` record of six flags and
 * the two module flags `increasingThrottle` and `decreasingThrottle`, set by
 * `keydown` and cleared by `keyup` according to `event.code`.
 *
 * The record also carries `throttleUp` and `throttleDown`, which no handler
 * ever writes: the handlers drive the throttle through the two module flags
 * instead. They are kept so that the record has the script's shape, and the
 * lemmas below show that they never change.
 */
module Controls {
  import opened Options

  datatype Keyboard = Keyboard(
    pitchUp: bool,
    pitchDown: bool,
    rollLeft: bool,
    rollRight: bool,
    throttleUp: bool,
    throttleDown: bool)

  /** Everything the key handlers write. */
  datatype Latch = Latch(keyboard: Keyboard, increasingThrottle: bool, decreasingThrottle: bool)

  /** The record and both flags as the script declares them: all false. */
  const Released: Latch :=
    Latch(Keyboard(false, false, false, false, false, false), false, false)

  /** The flags a key code can drive. */
  datatype Action = PitchUp | PitchDown | RollLeft | RollRight | IncreaseThrottle | DecreaseThrottle

  /**
   * The case labels shared by both `switch` statements. Note that W and the
   * up arrow set `pitchDown`, and S and the down arrow set `pitchUp`.
   */
  function ActionOf(code: string): (r: Option<Action>)
    ensures r == Some(PitchDown) <==> code == "KeyW" || code == "ArrowUp"
    ensures r == Some(PitchUp) <==> code == "KeyS" || code == "ArrowDown"
    ensures r == Some(RollLeft) <==> code == "KeyA" || code == "ArrowLeft"
    ensures r == Some(RollRight) <==> code == "KeyD" || code == "ArrowRight"
    ensures r == Some(IncreaseThrottle) <==> code == "ShiftLeft"
    ensures r == Some(DecreaseThrottle) <==> code == "ControlLeft"
  {
    match code
    case "KeyW" | "ArrowUp" => Some(PitchDown)
    case "KeyS" | "ArrowDown" => Some(PitchUp)
    case "KeyA" | "ArrowLeft" => Some(RollLeft)
    case "KeyD" | "ArrowRight" => Some(RollRight)
    case "ShiftLeft" => Some(IncreaseThrottle)
    case "ControlLeft" => Some(DecreaseThrottle)
    case _ => None
  }

  /** Whether the flag of an action is set. */
  function Held(l: Latch, a: Action): bool {
    match a
    case PitchUp => l.keyboard.pitchUp
    case PitchDown => l.keyboard.pitchDown
    case RollLeft => l.keyboard.rollLeft
    case RollRight => l.keyboard.rollRight
    case IncreaseThrottle => l.increasingThrottle
    case DecreaseThrottle => l.decreasingThrottle
  }

  /** Writes the flag of one action and nothing else. */
  function SetFlag(l: Latch, a: Action, value: bool): (r: Latch)
    ensures Held(r, a) == value
    ensures forall b :: b != a ==> Held(r, b) == Held(l, b)
    ensures r.keyboard.throttleUp == l.keyboard.throttleUp
    ensures r.keyboard.throttleDown == l.keyboard.throttleDown
  {
    match a
    case PitchUp => l.(keyboard := l.keyboard.(pitchUp := value))
    case PitchDown => l.(keyboard := l.keyboard.(pitchDown := value))
    case RollLeft => l.(keyboard := l.keyboard.(rollLeft := value))
    case RollRight => l.(keyboard := l.keyboard.(rollRight := value))
    case IncreaseThrottle => l.(increasingThrottle := value)
    case DecreaseThrottle => l.(decreasingThrottle := value)
  }

  /** The `keydown` handler. */
  function Press(l: Latch, code: string): Latch {
    match ActionOf(code)
    case None => l
    case Some(a) => SetFlag(l, a, true)
  }

  /** The `keyup` handler. */
  function Release(l: Latch, code: string): Latch {
    match ActionOf(code)
    case None => l
    case Some(a) => SetFlag(l, a, false)
  }

  /** Two latches agreeing on every flag and on the two unused fields are the same latch. */
  lemma {:induction false} LatchExtensionality(l: Latch, m: Latch)
    requires forall a :: Held(l, a) == Held(m, a)
    requires l.keyboard.throttleUp == m.keyboard.throttleUp
    requires l.keyboard.throttleDown == m.keyboard.throttleDown
    ensures l == m
  {
    assert Held(l, PitchUp) == Held(m, PitchUp);
    assert Held(l, PitchDown) == Held(m, PitchDown);
    assert Held(l, RollLeft) == Held(m, RollLeft);
    assert Held(l, RollRight) == Held(m, RollRight);
    assert Held(l, IncreaseThrottle) == Held(m, IncreaseThrottle);
    assert Held(l, DecreaseThrottle) == Held(m, DecreaseThrottle);
  }

  /** After `keydown`, a flag is set exactly when it was set before or the key drives it. */
  lemma PressSets(l: Latch, code: string, a: Action)
    ensures Held(Press(l, code), a) <==> Held(l, a) || ActionOf(code) == Some(a)
  {
  }

  /** After `keyup`, a flag is set exactly when it was set before and the key does not drive it. */
  lemma ReleaseClears(l: Latch, code: string, a: Action)
    ensures Held(Release(l, code), a) <==> Held(l, a) && ActionOf(code) != Some(a)
  {
  }

  /** A code with no case label leaves the latch as it was, on either event. */
  lemma UnmappedIgnored(l: Latch, code: string)
    requires ActionOf(code) == None
    ensures Press(l, code) == l && Release(l, code) == l
  {
  }

  /** The unused `throttleUp` and `throttleDown` fields never change. */
  lemma UnusedFieldsFixed(l: Latch, code: string)
    ensures Press(l, code).keyboard.throttleUp == l.keyboard.throttleUp
    ensures Press(l, code).keyboard.throttleDown == l.keyboard.throttleDown
    ensures Release(l, code).keyboard.throttleUp == l.keyboard.throttleUp
    ensures Release(l, code).keyboard.throttleDown == l.keyboard.throttleDown
  {
  }

  /** `keyup` undoes a `keydown` of the same code when its flag was clear before. */
  lemma {:induction false} ReleaseUndoesPress(l: Latch, code: string)
    requires forall a :: ActionOf(code) == Some(a) ==> !Held(l, a)
    ensures Release(Press(l, code), code) == l
  {
    var r := Release(Press(l, code), code);
    forall a
      ensures Held(r, a) == Held(l, a)
    {
      PressSets(l, code, a);
      ReleaseClears(Press(l, code), code, a);
    }
    UnusedFieldsFixed(l, code);
    UnusedFieldsFixed(Press(l, code), code);
    LatchExtensionality(r, l);
  }

  /** Repeated `keydown` events (auto-repeat) change nothing after the first. */
  lemma {:induction false} PressIdempotent(l: Latch, code: string)
    ensures Press(Press(l, code), code) == Press(l, code)
  {
    var p := Press(l, code);
    forall a
      ensures Held(Press(p, code), a) == Held(p, a)
    {
      PressSets(p, code, a);
      PressSets(l, code, a);
    }
    UnusedFieldsFixed(p, code);
    LatchExtensionality(Press(p, code), p);
  }

  /** The last event on a key decides its flag, whatever came before. */
  lemma {:induction false} LastEventWins(l: Latch, code: string)
    ensures Release(Press(l, code), code) == Release(l, code)
    ensures Press(Release(l, code), code) == Press(l, code)
  {
    var pr, r := Release(Press(l, code), code), Release(l, code);
    var rp, p := Press(Release(l, code), code), Press(l, code);
    forall a
      ensures Held(pr, a) == Held(r, a) && Held(rp, a) == Held(p, a)
    {
      PressSets(l, code, a);
      ReleaseClears(Press(l, code), code, a);
      ReleaseClears(l, code, a);
      PressSets(Release(l, code), code, a);
    }
    UnusedFieldsFixed(l, code);
    UnusedFieldsFixed(Press(l, code), code);
    UnusedFieldsFixed(Release(l, code), code);
    LatchExtensionality(pr, r);
    LatchExtensionality(rp, p);
  }

  /** Presses of any two keys commute. */
  lemma {:induction false} PressesCommute(l: Latch, c1: string, c2: string)
    ensures Press(Press(l, c1), c2) == Press(Press(l, c2), c1)
  {
    var p12, p21 := Press(Press(l, c1), c2), Press(Press(l, c2), c1);
    forall a
      ensures Held(p12, a) == Held(p21, a)
    {
      PressSets(l, c1, a);
      PressSets(l, c2, a);
      PressSets(Press(l, c1), c2, a);
      PressSets(Press(l, c2), c1, a);
    }
    UnusedFieldsFixed(l, c1);
    UnusedFieldsFixed(l, c2);
    UnusedFieldsFixed(Press(l, c1), c2);
    UnusedFieldsFixed(Press(l, c2), c1);
    LatchExtensionality(p12, p21);
  }

  /** A press and a release of keys that drive different flags commute. */
  lemma {:induction false} DistinctPressReleaseCommute(l: Latch, c1: string, c2: string)
    requires ActionOf(c1) != ActionOf(c2)
    ensures Release(Press(l, c1), c2) == Press(Release(l, c2), c1)
  {
    var pr, rp := Release(Press(l, c1), c2), Press(Release(l, c2), c1);
    forall a
      ensures Held(pr, a) == Held(rp, a)
    {
      PressSets(l, c1, a);
      ReleaseClears(Press(l, c1), c2, a);
      ReleaseClears(l, c2, a);
      PressSets(Release(l, c2), c1, a);
    }
    UnusedFieldsFixed(l, c1);
    UnusedFieldsFixed(l, c2);
    UnusedFieldsFixed(Press(l, c1), c2);
    UnusedFieldsFixed(Release(l, c2), c1);
    LatchExtensionality(pr, rp);
  }

}
