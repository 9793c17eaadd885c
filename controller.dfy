/** The surface gamepad controller: raw stick, trigger, hat and button state, its min-max
    normalisation into PWM readings, the priority-ordered rules that turn the readings into
    the nine thruster and three motor outputs, and the change-detecting push of those outputs
    into the surface store. */
module Controller {
  import opened Common
  import SurfaceDataManager

  // Min-max normalisation

  /** Python `int(x)` on a float: truncation toward zero. */
  function Trunc(x: real): (r: int)
    ensures x >= 0.0 ==> r as real <= x < r as real + 1.0
    ensures x < 0.0 ==> r as real - 1.0 < x <= r as real
  {
    if x >= 0.0 then x.Floor else -((-x).Floor)
  }

  /** `normalise`: `int(imin + (value - cmin) * (imax - imin) / (cmax - cmin))`, the product
      taken on integers and the quotient exactly (floating-point rounding is not modelled). */
  function Normalise(value: int, cmin: int, cmax: int, imin: int, imax: int): int
    requires cmax != cmin
  {
    Trunc(imin as real + ((value - cmin) * (imax - imin)) as real / (cmax - cmin) as real)
  }

  lemma MulMonotone(a: int, b: int, c: int)
    requires a <= b
    ensures c >= 0 ==> a * c <= b * c
    ensures c <= 0 ==> a * c >= b * c
  {
  }

  lemma TruncMonotone(x: real, y: real)
    requires x <= y
    ensures Trunc(x) <= Trunc(y)
  {
  }

  /** `normalise` maps the ends of the actual range onto the ends of the intended one. */
  lemma NormaliseEnds(cmin: int, cmax: int, imin: int, imax: int)
    requires cmax != cmin
    ensures Normalise(cmin, cmin, cmax, imin, imax) == imin
    ensures Normalise(cmax, cmin, cmax, imin, imax) == imax
  {
    QuotientOfProduct(cmax - cmin, imax - imin);
    assert (cmin - cmin) * (imax - imin) == 0;
  }

  /** A value inside the actual range normalises into the intended range, whichever way round
      the intended range is given. */
  lemma NormaliseBounds(value: int, cmin: int, cmax: int, imin: int, imax: int)
    requires cmin < cmax && cmin <= value <= cmax
    ensures imin <= imax ==> imin <= Normalise(value, cmin, cmax, imin, imax) <= imax
    ensures imax <= imin ==> imax <= Normalise(value, cmin, cmax, imin, imax) <= imin
  {
    var d := (cmax - cmin) as real;
    var n := ((value - cmin) * (imax - imin)) as real;
    var top := ((cmax - cmin) * (imax - imin)) as real;
    MulMonotone(0, value - cmin, imax - imin);
    MulMonotone(value - cmin, cmax - cmin, imax - imin);
    QuotientOfProduct(cmax - cmin, imax - imin);
    if imin <= imax {
      QuotientBounds(0.0, n, top, d);
      TruncMonotone(imin as real, imin as real + n / d);
      TruncMonotone(imin as real + n / d, imax as real);
    } else {
      QuotientBounds(top, n, 0.0, d);
      TruncMonotone(imax as real, imin as real + n / d);
      TruncMonotone(imin as real + n / d, imin as real);
    }
  }

  lemma QuotientOfProduct(a: int, b: int)
    requires a != 0
    ensures (a * b) as real / a as real == b as real
  {
    assert (a * b) as real == a as real * b as real;
  }

  lemma QuotientBounds(lo: real, n: real, hi: real, d: real)
    requires d > 0.0 && lo <= n <= hi
    ensures lo / d <= n / d <= hi / d
  {
  }

  // Constants of `__init__` and `_register_motors`

  const AXIS_MAX: int := 32767
  const AXIS_MIN: int := -32768
  const AXIS_PWM_MAX: int := 1900
  const AXIS_PWM_MIN: int := 1100
  const TRIGGER_MAX: int := 255
  const TRIGGER_MIN: int := 0
  const TRIGGER_PWM_MAX: int := 1900
  const TRIGGER_PWM_MIN: int := 1500

  /** How far a raw axis value must move before the setter records it. */
  const SENSITIVITY: int := 100

  /** `_idle`, `normalise(0, AXIS_MIN, AXIS_MAX, 1100, 1900)`: see IdleIsCentre. */
  const IDLE: int := 1500

  /** `_button_sensitivity`, `min(400, 1900 - IDLE)`. */
  const BUTTON_SENSITIVITY: int := 400

  /** `arm_rotation_speed` and `box_movement_speed`, `min(100, 1900 - IDLE)`. */
  const ARM_SPEED: int := 100
  const BOX_SPEED: int := 100

  /** The idle PWM value is what a centred stick normalises to, and the button and motor
      speeds are the capped distances to the top of the PWM range. */
  lemma IdleIsCentre()
    ensures Normalise(0, AXIS_MIN, AXIS_MAX, AXIS_PWM_MIN, AXIS_PWM_MAX) == IDLE
    ensures Normalise(TRIGGER_MIN, TRIGGER_MIN, TRIGGER_MAX, TRIGGER_PWM_MIN, 2 * TRIGGER_PWM_MIN - TRIGGER_PWM_MAX) == IDLE
    ensures Normalise(TRIGGER_MIN, TRIGGER_MIN, TRIGGER_MAX, TRIGGER_PWM_MIN, TRIGGER_PWM_MAX) == IDLE
    ensures BUTTON_SENSITIVITY == if 400 < AXIS_PWM_MAX - IDLE then 400 else AXIS_PWM_MAX - IDLE
    ensures ARM_SPEED == BOX_SPEED == if 100 < AXIS_PWM_MAX - IDLE then 100 else AXIS_PWM_MAX - IDLE
  {
    assert (32768 * 800) as real / 65535 as real == 26214400.0 / 65535.0;
  }

  // Raw gamepad state and its readings

  /** The raw fields of the controller: four stick axes, two triggers, the hat and ten
      buttons, as last stored by their setters. */
  datatype Pad = Pad(
    leftAxisX: int, leftAxisY: int, rightAxisX: int, rightAxisY: int,
    leftTrigger: int, rightTrigger: int, hatX: int, hatY: int,
    buttonA: bool, buttonB: bool, buttonX: bool, buttonY: bool, buttonLB: bool, buttonRB: bool,
    leftStick: bool, rightStick: bool, select: bool, start: bool)

  /** The state after `__init__`: everything zero or released. */
  const RELEASED: Pad := Pad(0, 0, 0, 0, 0, 0, 0, 0, false, false, false, false, false, false, false, false, false, false)

  /** What the rules read: the normalised getters, the hat, the buttons and the roll
      sensitivity. */
  datatype Readings = Readings(
    leftAxisY: int, rightAxisX: int, rightAxisY: int, leftTrigger: int, rightTrigger: int,
    hatX: int, hatY: int,
    buttonA: bool, buttonB: bool, buttonX: bool, buttonY: bool, buttonLB: bool, buttonRB: bool,
    leftStick: bool, rightStick: bool, roll: int)

  /** The axis getters. */
  function AxisReading(raw: int): int {
    Normalise(raw, AXIS_MIN, AXIS_MAX, AXIS_PWM_MIN, AXIS_PWM_MAX)
  }

  /** The left-trigger getter: pressing it moves from idle down to 1100. */
  function LeftTriggerReading(raw: int): int {
    Normalise(raw, TRIGGER_MIN, TRIGGER_MAX, TRIGGER_PWM_MIN, 2 * TRIGGER_PWM_MIN - TRIGGER_PWM_MAX)
  }

  /** The right-trigger getter: pressing it moves from idle up to 1900. */
  function RightTriggerReading(raw: int): int {
    Normalise(raw, TRIGGER_MIN, TRIGGER_MAX, TRIGGER_PWM_MIN, TRIGGER_PWM_MAX)
  }

  function Read(p: Pad, roll: int): Readings {
    Readings(AxisReading(p.leftAxisY), AxisReading(p.rightAxisX), AxisReading(p.rightAxisY),
             LeftTriggerReading(p.leftTrigger), RightTriggerReading(p.rightTrigger), p.hatX, p.hatY,
             p.buttonA, p.buttonB, p.buttonX, p.buttonY, p.buttonLB, p.buttonRB, p.leftStick, p.rightStick, roll)
  }

  /** Raw values within the hardware ranges give readings within the PWM ranges. */
  lemma ReadingRanges(raw: int)
    ensures AXIS_MIN <= raw <= AXIS_MAX ==> AXIS_PWM_MIN <= AxisReading(raw) <= AXIS_PWM_MAX
    ensures TRIGGER_MIN <= raw <= TRIGGER_MAX ==> 1100 <= LeftTriggerReading(raw) <= IDLE
    ensures TRIGGER_MIN <= raw <= TRIGGER_MAX ==> IDLE <= RightTriggerReading(raw) <= TRIGGER_PWM_MAX
  {
    if AXIS_MIN <= raw <= AXIS_MAX {
      NormaliseBounds(raw, AXIS_MIN, AXIS_MAX, AXIS_PWM_MIN, AXIS_PWM_MAX);
    }
    if TRIGGER_MIN <= raw <= TRIGGER_MAX {
      NormaliseBounds(raw, TRIGGER_MIN, TRIGGER_MAX, TRIGGER_PWM_MIN, 2 * TRIGGER_PWM_MIN - TRIGGER_PWM_MAX);
      NormaliseBounds(raw, TRIGGER_MIN, TRIGGER_MAX, TRIGGER_PWM_MIN, TRIGGER_PWM_MAX);
    }
  }

  /** The trigger getters map the released and the fully pressed trigger onto the ends of
      their PWM ranges. */
  lemma TriggerEnds()
    ensures LeftTriggerReading(TRIGGER_MIN) == IDLE && LeftTriggerReading(TRIGGER_MAX) == 1100
    ensures RightTriggerReading(TRIGGER_MIN) == IDLE && RightTriggerReading(TRIGGER_MAX) == TRIGGER_PWM_MAX
  {
    NormaliseEnds(TRIGGER_MIN, TRIGGER_MAX, TRIGGER_PWM_MIN, 2 * TRIGGER_PWM_MIN - TRIGGER_PWM_MAX);
    NormaliseEnds(TRIGGER_MIN, TRIGGER_MAX, TRIGGER_PWM_MIN, TRIGGER_PWM_MAX);
  }

  // The axis setters

  /** An axis setter's decision: the new raw value is kept if it is an extreme or at least
      SENSITIVITY away from the stored one. */
  function Gate(stored: int, value: int): (r: int)
    ensures r == value <==> value == stored || value == AXIS_MAX || value == AXIS_MIN || Abs((stored - value) as real) >= SENSITIVITY as real
    ensures r == value || r == stored
  {
    if value == AXIS_MAX || value == AXIS_MIN || Abs((stored - value) as real) >= SENSITIVITY as real then value else stored
  }

  datatype Axis = LeftX | LeftY | RightX | RightY

  /** The pad after the setter of axis `a` was given `value`. */
  function SetAxisOf(p: Pad, a: Axis, value: int): Pad {
    match a
    case LeftX => p.(leftAxisX := Gate(p.leftAxisX, value))
    case LeftY => p.(leftAxisY := Gate(p.leftAxisY, value))
    case RightX => p.(rightAxisX := Gate(p.rightAxisX, value))
    case RightY => p.(rightAxisY := Gate(p.rightAxisY, value))
  }

  // The output rules of `_register_thrusters` and `_register_motors`

  /** `_update_thruster_fp`: surge with sway, surge, sway, right then left yaw, else idle. */
  function ThrusterFP(r: Readings): int {
    if r.leftAxisY != IDLE && r.rightAxisX != IDLE then
      (if r.leftAxisY < IDLE then 2 * IDLE - r.leftAxisY else 2 * IDLE - r.rightAxisX)
    else if r.leftAxisY != IDLE then 2 * IDLE - r.leftAxisY
    else if r.rightAxisX != IDLE then 2 * IDLE - r.rightAxisX
    else if r.rightTrigger != IDLE then 2 * IDLE - r.rightTrigger
    else if r.leftTrigger != IDLE then 2 * IDLE - r.leftTrigger
    else IDLE
  }

  /** `_update_thruster_fs` */
  function ThrusterFS(r: Readings): int {
    if r.leftAxisY != IDLE && r.rightAxisX != IDLE then
      (if r.leftAxisY < IDLE then 2 * IDLE - r.leftAxisY else r.rightAxisX)
    else if r.leftAxisY != IDLE then 2 * IDLE - r.leftAxisY
    else if r.rightAxisX != IDLE then r.rightAxisX
    else if r.rightTrigger != IDLE then r.rightTrigger
    else if r.leftTrigger != IDLE then r.leftTrigger
    else IDLE
  }

  /** `_update_thruster_ap` */
  function ThrusterAP(r: Readings): int {
    if r.leftAxisY != IDLE && r.rightAxisX != IDLE then
      (if r.leftAxisY > IDLE then r.leftAxisY else 2 * IDLE - r.rightAxisX)
    else if r.leftAxisY != IDLE then r.leftAxisY
    else if r.rightAxisX != IDLE then 2 * IDLE - r.rightAxisX
    else if r.rightTrigger != IDLE then r.rightTrigger
    else if r.leftTrigger != IDLE then r.leftTrigger
    else IDLE
  }

  /** `_update_thruster_as` */
  function ThrusterAS(r: Readings): int {
    if r.leftAxisY != IDLE && r.rightAxisX != IDLE then
      (if r.leftAxisY > IDLE then r.leftAxisY else r.rightAxisX)
    else if r.leftAxisY != IDLE then r.leftAxisY
    else if r.rightAxisX != IDLE then r.rightAxisX
    else if r.rightTrigger != IDLE then 2 * IDLE - r.rightTrigger
    else if r.leftTrigger != IDLE then 2 * IDLE - r.leftTrigger
    else IDLE
  }

  /** The four vertical thrusters share one priority order: RB (full up), LB (full down),
      pitch, X (roll to port), B (roll to starboard), else idle. `front` selects the pitch
      direction of the front pair and `rollSign` the roll direction of the thruster. */
  function Vertical(r: Readings, front: bool, rollSign: int): int {
    if r.buttonRB then IDLE + BUTTON_SENSITIVITY
    else if r.buttonLB then IDLE - BUTTON_SENSITIVITY
    else if r.rightAxisY != IDLE then (if front then 2 * IDLE - r.rightAxisY else r.rightAxisY)
    else if r.buttonX then IDLE + rollSign * r.roll
    else if r.buttonB then IDLE - rollSign * r.roll
    else IDLE
  }

  /** `_update_thruster_tfp`, `_tfs`, `_tap`, `_tas` */
  function ThrusterTFP(r: Readings): int { Vertical(r, true, -1) }
  function ThrusterTFS(r: Readings): int { Vertical(r, true, 1) }
  function ThrusterTAP(r: Readings): int { Vertical(r, false, -1) }
  function ThrusterTAS(r: Readings): int { Vertical(r, false, 1) }

  /** `_update_thruster_m`: A surges forwards, Y backwards. */
  function ThrusterM(r: Readings): int {
    if r.buttonA then IDLE + BUTTON_SENSITIVITY
    else if r.buttonY then IDLE - BUTTON_SENSITIVITY
    else IDLE
  }

  /** `_update_arm`: the hat's x direction turns the arm. */
  function MotorArm(r: Readings): int {
    if r.hatX != 0 then IDLE - r.hatX * ARM_SPEED else IDLE
  }

  /** `_update_gripper`: the hat's y direction opens or closes the gripper. */
  function MotorGripper(r: Readings): int {
    if r.hatY != 0 then IDLE - r.hatY * BUTTON_SENSITIVITY else IDLE
  }

  /** `_update_box`: the left stick button wins over the right one. */
  function MotorBox(r: Readings): int {
    if r.leftStick then IDLE - BOX_SPEED
    else if r.rightStick then IDLE + BOX_SPEED
    else IDLE
  }

  /** The keys of `_data_manager_map`. */
  const DATA_KEYS: set<string> :=
    {"Thr_FP", "Thr_FS", "Thr_AP", "Thr_AS", "Thr_TFP", "Thr_TFS", "Thr_TAP", "Thr_TAS", "Thr_M",
     "Mot_R", "Mot_G", "Mot_F"}

  /** The property that `_data_manager_map` names for `key`, read on `r`. */
  function Output(key: string, r: Readings): int
    requires key in DATA_KEYS
  {
    match key
    case "Thr_FP" => ThrusterFP(r)
    case "Thr_FS" => ThrusterFS(r)
    case "Thr_AP" => ThrusterAP(r)
    case "Thr_AS" => ThrusterAS(r)
    case "Thr_TFP" => ThrusterTFP(r)
    case "Thr_TFS" => ThrusterTFS(r)
    case "Thr_TAP" => ThrusterTAP(r)
    case "Thr_TAS" => ThrusterTAS(r)
    case "Thr_M" => ThrusterM(r)
    case "Mot_R" => MotorArm(r)
    case "Mot_G" => MotorGripper(r)
    case _ => MotorBox(r)
  }

  function Outputs(r: Readings): map<string, int> {
    map k | k in DATA_KEYS :: Output(k, r)
  }

  /** The readings of a pad at rest: sticks and triggers at idle, hat centred, no button. */
  predicate AtRest(r: Readings) {
    r.leftAxisY == IDLE && r.rightAxisX == IDLE && r.rightAxisY == IDLE &&
    r.leftTrigger == IDLE && r.rightTrigger == IDLE && r.hatX == 0 && r.hatY == 0 &&
    !r.buttonA && !r.buttonB && !r.buttonX && !r.buttonY && !r.buttonLB && !r.buttonRB &&
    !r.leftStick && !r.rightStick
  }

  // What the rules promise

  /** A pad at rest drives every thruster and motor at idle. */
  lemma AtRestAllIdle(r: Readings)
    requires AtRest(r)
    ensures forall k :: k in DATA_KEYS ==> Output(k, r) == IDLE
  {
  }

  /** The released pad reads as a pad at rest. */
  lemma ReleasedAtRest(roll: int)
    ensures AtRest(Read(RELEASED, roll))
  {
    IdleIsCentre();
  }

  /** Sway alone: the port thrusters mirror the starboard ones about idle. */
  lemma SwayMirrors(r: Readings)
    requires r.leftAxisY == IDLE && r.rightAxisX != IDLE
    ensures ThrusterFP(r) == 2 * IDLE - r.rightAxisX && ThrusterFS(r) == r.rightAxisX
    ensures ThrusterFP(r) + ThrusterFS(r) == 2 * IDLE && ThrusterAP(r) + ThrusterAS(r) == 2 * IDLE
    ensures ThrusterFP(r) == ThrusterAP(r)
  {
  }

  /** Surge alone: the front pair pushes against the aft pair, each pair in step. */
  lemma SurgeOpposesPairs(r: Readings)
    requires r.leftAxisY != IDLE && r.rightAxisX == IDLE
    ensures ThrusterFP(r) == ThrusterFS(r) && ThrusterAP(r) == ThrusterAS(r)
    ensures ThrusterFP(r) + ThrusterAP(r) == 2 * IDLE
  {
  }

  /** Yaw alone (a trigger, sticks centred): diagonal thrusters pair up, each pair mirroring the
      other about idle; the right trigger wins over the left. */
  lemma YawPairsDiagonals(r: Readings)
    requires r.leftAxisY == IDLE && r.rightAxisX == IDLE && (r.rightTrigger != IDLE || r.leftTrigger != IDLE)
    ensures ThrusterFP(r) == ThrusterAS(r) && ThrusterFS(r) == ThrusterAP(r)
    ensures ThrusterFP(r) + ThrusterFS(r) == 2 * IDLE
    ensures ThrusterFS(r) == if r.rightTrigger != IDLE then r.rightTrigger else r.leftTrigger
  {
  }

  /** The vertical thrusters follow RB over LB over pitch over X over B, and ignore the
      horizontal controls. */
  lemma VerticalPriority(r: Readings)
    ensures var v := [ThrusterTFP(r), ThrusterTFS(r), ThrusterTAP(r), ThrusterTAS(r)];
      (r.buttonRB ==> v == [IDLE + 400, IDLE + 400, IDLE + 400, IDLE + 400]) &&
      (!r.buttonRB && r.buttonLB ==> v == [IDLE - 400, IDLE - 400, IDLE - 400, IDLE - 400]) &&
      (!r.buttonRB && !r.buttonLB && r.rightAxisY != IDLE ==>
        v[0] == v[1] && v[2] == v[3] && v[0] + v[2] == 2 * IDLE && v[2] == r.rightAxisY) &&
      (!r.buttonRB && !r.buttonLB && r.rightAxisY == IDLE && (r.buttonX || r.buttonB) ==>
        v[0] == v[2] && v[1] == v[3] && v[0] + v[1] == 2 * IDLE &&
        v[0] == if r.buttonX then IDLE - r.roll else IDLE + r.roll)
    ensures forall ly, rx, lt, rt ::
      var r' := r.(leftAxisY := ly, rightAxisX := rx, leftTrigger := lt, rightTrigger := rt);
      ThrusterTFP(r') == ThrusterTFP(r) && ThrusterTFS(r') == ThrusterTFS(r) &&
      ThrusterTAP(r') == ThrusterTAP(r) && ThrusterTAS(r') == ThrusterTAS(r)
  {
  }

  /** Readings within the PWM ranges, a hat within -1..1 and a roll sensitivity of at most 400
      keep every output within 1100..1900. */
  lemma OutputsInRange(r: Readings)
    requires 1100 <= r.leftAxisY <= 1900 && 1100 <= r.rightAxisX <= 1900 && 1100 <= r.rightAxisY <= 1900
    requires 1100 <= r.leftTrigger <= 1900 && 1100 <= r.rightTrigger <= 1900
    requires -1 <= r.hatX <= 1 && -1 <= r.hatY <= 1 && 0 <= r.roll <= 400
    ensures forall k :: k in DATA_KEYS ==> 1100 <= Output(k, r) <= 1900
  {
  }

  /** Raw values within the hardware ranges keep every output within 1100..1900. */
  lemma PadOutputsInRange(p: Pad, roll: int)
    requires AXIS_MIN <= p.leftAxisY <= AXIS_MAX && AXIS_MIN <= p.rightAxisX <= AXIS_MAX
    requires AXIS_MIN <= p.rightAxisY <= AXIS_MAX
    requires TRIGGER_MIN <= p.leftTrigger <= TRIGGER_MAX && TRIGGER_MIN <= p.rightTrigger <= TRIGGER_MAX
    requires -1 <= p.hatX <= 1 && -1 <= p.hatY <= 1 && 0 <= roll <= 400
    ensures forall k :: k in DATA_KEYS ==> 1100 <= Output(k, Read(p, roll)) <= 1900
  {
    ReadingRanges(p.leftAxisY);
    ReadingRanges(p.rightAxisX);
    ReadingRanges(p.rightAxisY);
    ReadingRanges(p.leftTrigger);
    ReadingRanges(p.rightTrigger);
    OutputsInRange(Read(p, roll));
  }

  // `_set_default_values`

  /** The pad after `_set_default_values` as written: the buttons are released and the
      triggers and hat zeroed directly, but the axes are zeroed through their setters, so an
      axis within SENSITIVITY of zero keeps its value. */
  function DefaultPadAsWritten(p: Pad): (r: Pad)
    ensures r.leftAxisY == Gate(p.leftAxisY, 0) && r.rightAxisX == Gate(p.rightAxisX, 0)
  {
    var q := SetAxisOf(SetAxisOf(SetAxisOf(SetAxisOf(p, LeftX, 0), LeftY, 0), RightX, 0), RightY, 0);
    q.(leftTrigger := 0, rightTrigger := 0, hatY := 0, hatX := 0,
       buttonA := false, buttonB := false, buttonX := false, buttonY := false, buttonLB := false,
       buttonRB := false, leftStick := false, rightStick := false, select := false, start := false)
  }

  /** As written, the reset can leave the ROV moving: a left stick resting at raw 99 keeps
      that value, reads 1501, and drives the front-port thruster at 1499. */
  lemma ResetAsWrittenLeavesThrust()
    ensures var p := RELEASED.(leftAxisY := 99);
      var q := DefaultPadAsWritten(p);
      q.leftAxisY == 99 && AxisReading(q.leftAxisY) == 1501 &&
      ThrusterFP(Read(q, BUTTON_SENSITIVITY)) == 1499 && ThrusterFP(Read(q, BUTTON_SENSITIVITY)) != IDLE
  {
    var p := RELEASED.(leftAxisY := 99);
    var q := DefaultPadAsWritten(p);
    assert Gate(99, 0) == 99;
    assert ((99 - AXIS_MIN) * (AXIS_PWM_MAX - AXIS_PWM_MIN)) as real / (AXIS_MAX - AXIS_MIN) as real == 26293600.0 / 65535.0;
    IdleIsCentre();
  }

  /** The pad after `_set_default_values` as evidently intended ("set the axis to idle"):
      every field back to the released state. */
  function DefaultPad(p: Pad): (r: Pad)
    ensures r == RELEASED
  {
    RELEASED
  }

  /** After the intended reset, every thruster and motor is idle. */
  lemma ResetIdlesAllOutputs(p: Pad)
    ensures Outputs(Read(DefaultPad(p), BUTTON_SENSITIVITY)) == map k | k in DATA_KEYS :: IDLE
  {
    ReleasedAtRest(BUTTON_SENSITIVITY);
    AtRestAllIdle(Read(DefaultPad(p), BUTTON_SENSITIVITY));
  }

  // `_tick_update_data`

  /** The entries of `out` that differ from, or are missing in, the last pushed values. */
  function Changed(last: map<string, int>, out: map<string, int>): (r: map<string, int>)
    ensures forall k :: k in r <==> k in out && (k !in last || last[k] != out[k])
    ensures forall k :: k in r ==> r[k] == out[k]
  {
    map k | k in out && (k !in last || last[k] != out[k]) :: out[k]
  }

  /** The store values of a map of PWM integers. */
  function AsStore(m: map<string, int>): (r: SurfaceDataManager.Store)
    ensures r.Keys == m.Keys && forall k :: k in r ==> r[k] == Num(m[k] as real)
  {
    map k | k in m :: Num(m[k] as real)
  }

  /** Once every output was pushed, pushing the same outputs again writes nothing. */
  lemma PushIdempotent(last: map<string, int>, out: map<string, int>)
    ensures Changed(last + out, out) == map[]
  {
  }

  /** Pushing outputs that agree with what was last pushed writes nothing; any output that
      disagrees is written. */
  lemma PushWritesExactlyChanges(last: map<string, int>, out: map<string, int>, k: string)
    requires k in out
    ensures k in Changed(last, out) <==> k !in last || last[k] != out[k]
  {
  }

  datatype DrivingMode = Manual | Balancing | Autonomous

  /** What is assigned to `driving_mode`: a DrivingMode, or any other object. */
  datatype ModeArgument = Mode(mode: DrivingMode) | NotAMode

  /** The IMU readings a mode change fetches from the data manager: the yaw for autonomous
      mode, yaw, pitch and roll for balancing mode, none for manual mode. */
  function ImuKeys(mode: DrivingMode): (r: set<string>)
    ensures mode == Manual <==> r == {}
    ensures mode != Manual ==> "Sen_IMU_X" in r
  {
    match mode
    case Manual => {}
    case Autonomous => {"Sen_IMU_X"}
    case Balancing => {"Sen_IMU_X", "Sen_IMU_Y", "Sen_IMU_Z"}
  }

  /** The `_dispatch_map` codes and the setter each one calls. */
  function Dispatched(p: Pad, code: string, state: int): (r: Pad)
    ensures code !in DISPATCH_CODES ==> r == p
  {
    match code
    case "ABS_X" => SetAxisOf(p, LeftX, state)
    case "ABS_Y" => SetAxisOf(p, LeftY, state)
    case "ABS_RX" => SetAxisOf(p, RightX, state)
    case "ABS_RY" => SetAxisOf(p, RightY, state)
    case "ABS_Z" => p.(leftTrigger := state)
    case "ABS_RZ" => p.(rightTrigger := state)
    case "ABS_HAT0X" => p.(hatX := state)
    case "ABS_HAT0Y" => p.(hatY := -state)
    case "BTN_SOUTH" => p.(buttonA := state != 0)
    case "BTN_EAST" => p.(buttonB := state != 0)
    case "BTN_WEST" => p.(buttonX := state != 0)
    case "BTN_NORTH" => p.(buttonY := state != 0)
    case "BTN_TL" => p.(buttonLB := state != 0)
    case "BTN_TR" => p.(buttonRB := state != 0)
    case "BTN_THUMBL" => p.(leftStick := state != 0)
    case "BTN_THUMBR" => p.(rightStick := state != 0)
    case "BTN_START" => p.(select := state != 0)
    case "BTN_SELECT" => p.(start := state != 0)
    case _ => p
  }

  const DISPATCH_CODES: set<string> :=
    {"ABS_X", "ABS_Y", "ABS_RX", "ABS_RY", "ABS_Z", "ABS_RZ", "ABS_HAT0X", "ABS_HAT0Y",
     "BTN_SOUTH", "BTN_EAST", "BTN_WEST", "BTN_NORTH", "BTN_TL", "BTN_TR", "BTN_THUMBL",
     "BTN_THUMBR", "BTN_START", "BTN_SELECT"}

  /** The hat's y setter stores the negated value, so a hat event of -1 is stored as 1 and
      drives the gripper to IDLE - 400; the axis setters ignore small moves. */
  lemma DispatchSetters(p: Pad, state: int)
    ensures Dispatched(p, "ABS_HAT0Y", state).hatY == -state
    ensures Dispatched(p, "ABS_HAT0Y", -1).hatY == 1 && MotorGripper(Read(Dispatched(p, "ABS_HAT0Y", -1), 0)) == IDLE - BUTTON_SENSITIVITY
    ensures Dispatched(p, "ABS_Y", state).leftAxisY ==
      if state == AXIS_MAX || state == AXIS_MIN || Abs((p.leftAxisY - state) as real) >= SENSITIVITY as real
      then state else p.leftAxisY
  {
  }

  class Controller {
    const dm: SurfaceDataManager.DataManager
    var pad: Pad
    var rollSensitivity: int
    var drivingMode: DrivingMode
    var lastSaved: map<string, int>

    function Readings(): Readings
      reads this
    {
      Read(pad, rollSensitivity)
    }

    /** `Controller.__init__` (with a gamepad present): all released, manual mode, and a
        first push of every output, all idle. */
    constructor (dm: SurfaceDataManager.DataManager)
      modifies dm
      ensures this.dm == dm && pad == RELEASED && rollSensitivity == BUTTON_SENSITIVITY && drivingMode == Manual
      ensures lastSaved == map k | k in DATA_KEYS :: IDLE
      ensures dm.data == old(dm.data) + AsStore(map k | k in DATA_KEYS :: IDLE)
    {
      this.dm := dm;
      pad := RELEASED;
      rollSensitivity := BUTTON_SENSITIVITY;
      drivingMode := Manual;
      lastSaved := map[];
      new;
      ReleasedAtRest(BUTTON_SENSITIVITY);
      AtRestAllIdle(Readings());
      assert Outputs(Readings()) == map k | k in DATA_KEYS :: IDLE;
      TickUpdateData();
      assert Changed(map[], Outputs(Readings())) == Outputs(Readings());
    }

    /** The setter of a stick axis. */
    method SetAxis(a: Axis, value: int)
      modifies this
      ensures pad == SetAxisOf(old(pad), a, value)
      ensures rollSensitivity == old(rollSensitivity) && drivingMode == old(drivingMode) && lastSaved == old(lastSaved)
    {
      match a {
        case LeftX => pad := pad.(leftAxisX := Gate(pad.leftAxisX, value));
        case LeftY => pad := pad.(leftAxisY := Gate(pad.leftAxisY, value));
        case RightX => pad := pad.(rightAxisX := Gate(pad.rightAxisX, value));
        case RightY => pad := pad.(rightAxisY := Gate(pad.rightAxisY, value));
      }
    }

    /** One event of `_read`: dispatched through `_dispatch_map` in manual mode only. */
    method OnEvent(code: string, state: int)
      modifies this
      ensures drivingMode == Manual ==> pad == Dispatched(old(pad), code, state)
      ensures drivingMode != Manual ==> pad == old(pad)
      ensures rollSensitivity == old(rollSensitivity) && drivingMode == old(drivingMode) && lastSaved == old(lastSaved)
    {
      if drivingMode == Manual {
        pad := Dispatched(pad, code, state);
      }
    }

    /** `_set_default_values`, as intended: release every control, restore the roll
        sensitivity. */
    method SetDefaultValues()
      modifies this
      ensures pad == DefaultPad(old(pad)) && rollSensitivity == BUTTON_SENSITIVITY
      ensures drivingMode == old(drivingMode) && lastSaved == old(lastSaved)
      ensures Outputs(Readings()) == map k | k in DATA_KEYS :: IDLE
    {
      pad := DefaultPad(pad);
      rollSensitivity := BUTTON_SENSITIVITY;
      ResetIdlesAllOutputs(old(pad));
    }

    /** The `driving_mode` setter: anything but a DrivingMode raises AttributeError and changes
        nothing; a mode is set after the reset, so every output is idle until the next input.
        Autonomous and balancing modes then fetch their IMU readings, and `get_data` skips
        missing keys, so a reading not yet stored raises KeyError with the reset done and the
        mode already stored. */
    method SetDrivingMode(value: ModeArgument) returns (fault: Option<Fault>)
      modifies this
      ensures value == NotAMode ==>
        (fault == Some(AttributeError) && pad == old(pad) && rollSensitivity == old(rollSensitivity) && drivingMode == old(drivingMode))
      ensures value.Mode? ==>
        (drivingMode == value.mode && pad == RELEASED && Outputs(Readings()) == map k | k in DATA_KEYS :: IDLE)
      ensures value.Mode? ==> (fault == None <==> ImuKeys(value.mode) <= dm.data.Keys)
      ensures value.Mode? && fault != None ==> fault == Some(KeyError)
      ensures value == Mode(Manual) ==> fault == None
      ensures lastSaved == old(lastSaved)
    {
      if value == NotAMode {
        return Some(AttributeError);
      }
      SetDefaultValues();
      drivingMode := value.mode;
      fault := None;
      match value.mode
      case Manual =>
      case Autonomous =>
        var sensors := dm.Get(["Sen_IMU_X"]);
        if "Sen_IMU_X" !in sensors {
          fault := Some(KeyError);
        }
      case Balancing =>
        var sensors := dm.Get(["Sen_IMU_X", "Sen_IMU_Y", "Sen_IMU_Z"]);
        if !({"Sen_IMU_X", "Sen_IMU_Y", "Sen_IMU_Z"} <= sensors.Keys) {
          fault := Some(KeyError);
        }
    }

    /** `_tick_update_data` in manual mode (the other modes first run the auto-drive or
        auto-balance step, which is not modelled): every output that is new or differs from
        the last pushed value is written to the store and remembered. */
    method TickUpdateData()
      requires drivingMode == Manual
      modifies this, dm
      ensures pad == old(pad) && rollSensitivity == old(rollSensitivity) && drivingMode == old(drivingMode)
      ensures lastSaved == old(lastSaved) + Outputs(old(Readings()))
      ensures dm.data == old(dm.data) + AsStore(Changed(old(lastSaved), Outputs(old(Readings()))))
    {
      PushChanged(Outputs(Readings()));
    }

    /** The loop of `_tick_update_data` over the computed outputs `out`. */
    method PushChanged(out: map<string, int>)
      modifies this`lastSaved, dm
      ensures lastSaved == old(lastSaved) + out
      ensures dm.data == old(dm.data) + AsStore(Changed(old(lastSaved), out))
    {
      var remaining := out.Keys;
      while remaining != {}
        invariant remaining <= out.Keys
        invariant lastSaved == old(lastSaved) + Done(out, remaining)
        invariant dm.data == old(dm.data) + AsStore(Changed(old(lastSaved), Done(out, remaining)))
        decreases remaining
      {
        var key :| key in remaining;
        TickInvariantStep(old(lastSaved), old(dm.data), out, remaining, key, lastSaved, dm.data);
        PushIfChanged(key, out[key]);
        remaining := remaining - {key};
      }
      assert Done(out, {}) == out;
    }

    /** The body of the loop of `_tick_update_data` for one key and its output `value`: the
        value is written and remembered unless it equals the value last pushed. */
    method PushIfChanged(key: string, value: int)
      modifies this`lastSaved, dm
      ensures if key !in old(lastSaved) || old(lastSaved)[key] != value
        then lastSaved == old(lastSaved)[key := value] && dm.data == old(dm.data)[key := Num(value as real)]
        else lastSaved == old(lastSaved) && dm.data == old(dm.data)
    {
      if key !in lastSaved || lastSaved[key] != value {
        dm.Set([(key, Num(value as real))]);
        SetOne(old(dm.data), key, Num(value as real));
        lastSaved := lastSaved[key := value];
      }
    }
  }

  /** The outputs of the keys already visited. */
  function Done(out: map<string, int>, remaining: set<string>): (r: map<string, int>)
    ensures forall k :: k in r <==> k in out && k !in remaining
  {
    map k | k in out && k !in remaining :: out[k]
  }

  /** One visited key keeps the loop invariants of `_tick_update_data`: a changed output is
      remembered and written, an unchanged one leaves both maps as they are. */
  lemma TickInvariantStep(last: map<string, int>, data: SurfaceDataManager.Store, out: map<string, int>,
                          remaining: set<string>, key: string,
                          saved: map<string, int>, store: SurfaceDataManager.Store)
    requires key in remaining && key in out
    requires saved == last + Done(out, remaining)
    requires store == data + AsStore(Changed(last, Done(out, remaining)))
    ensures key !in saved || saved[key] != out[key] ==>
      saved[key := out[key]] == last + Done(out, remaining - {key}) &&
      store[key := Num(out[key] as real)] == data + AsStore(Changed(last, Done(out, remaining - {key})))
    ensures key in saved && saved[key] == out[key] ==>
      saved == last + Done(out, remaining - {key}) &&
      store == data + AsStore(Changed(last, Done(out, remaining - {key})))
  {
    var done := Done(out, remaining);
    var value := out[key];
    DoneStep(out, remaining, key);
    MergeUpdate(last, done, key, value);
    ChangedStep(last, done, key, value);
    AsStoreUpdate(Changed(last, done), key, value);
    MergeUpdate(data, AsStore(Changed(last, done)), key, Num(value as real));
  }

  /** Visiting one more key adds its output to the visited ones. */
  lemma DoneStep(out: map<string, int>, remaining: set<string>, key: string)
    requires key in remaining && key in out
    ensures Done(out, remaining - {key}) == Done(out, remaining)[key := out[key]]
  {
  }

  /** Merging with a map that gains one key is merging and then updating that key. */
  lemma MergeUpdate<V>(m: map<string, V>, d: map<string, V>, key: string, v: V)
    ensures m + d[key := v] == (m + d)[key := v]
  {
  }

  /** A newly visited key is among the changes exactly when it differs from the last push. */
  lemma ChangedStep(last: map<string, int>, d: map<string, int>, key: string, v: int)
    requires key !in d
    ensures (key !in last || last[key] != v) ==> Changed(last, d[key := v]) == Changed(last, d)[key := v]
    ensures (key in last && last[key] == v) ==> Changed(last, d[key := v]) == Changed(last, d)
  {
  }

  lemma AsStoreUpdate(m: map<string, int>, key: string, v: int)
    ensures AsStore(m[key := v]) == AsStore(m)[key := Num(v as real)]
  {
  }

  /** `set_data` of a single keyword updates that key. */
  lemma SetOne(m: map<string, Value>, key: string, v: Value)
    ensures m + AsDict([(key, v)]) == m[key := v]
  {
    AsDictSnoc([], key, v);
    assert [] + [(key, v)] == [(key, v)];
  }
}
