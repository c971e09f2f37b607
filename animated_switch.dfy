/**
 * AnimatedSwitch: a progress value driven toward 1 while enabled and toward 0
 * while disabled, snapped to the exact bound once within the snap distance,
 * and read through an easing curve.
 */
module Switches {

  /** The QEasingCurve types the compositor uses. */
  datatype Curve = InQuad | OutQuad | OutBack | OutBounce | OutCubic

  /**
   * QEasingCurve::valueForProgress for a curve type. Its definition belongs to Qt
   * and is not modelled: every member taking an Easing holds for any such function.
   */
  type Easing = (Curve, real) -> real

  /** The fields of one switch. */
  datatype SwitchState = SwitchState(
    enabled: bool,
    value: real,
    snapDist: real,
    inType: Curve,
    outType: Curve,
    curve: Curve,
    inTime: real,
    outTime: real,
    easeTime: real)

  /** The state the constructor leaves: disabled, value 0, but the "in" curve and duration active. */
  function NewSwitch(inType: Curve, outType: Curve, inTime: real, outTime: real): (s: SwitchState)
    ensures !s.enabled && s.value == 0.0 && s.snapDist == 0.01
    ensures s.curve == inType && s.easeTime == inTime
    ensures s.inType == inType && s.outType == outType && s.inTime == inTime && s.outTime == outTime
  {
    SwitchState(false, 0.0, 0.01, inType, outType, inType, inTime, outTime, inTime)
  }

  /** The default switch: InQuad in, OutQuad out, 1000 ms in, 500 ms out. */
  function DefaultSwitch(): SwitchState
  {
    NewSwitch(InQuad, OutQuad, 1000.0, 500.0)
  }

  /** The invariant every switch keeps: the value in [0,1], positive durations, a non-negative snap distance. */
  ghost predicate Inv(s: SwitchState)
  {
    && 0.0 <= s.value <= 1.0
    && 0.0 <= s.snapDist
    && 0.0 < s.inTime && 0.0 < s.outTime
    && (s.easeTime == s.inTime || s.easeTime == s.outTime)
  }

  /** setEnabled: a real transition swaps in the curve and duration for the new direction. */
  function Toggle(s: SwitchState, enabled: bool): (r: SwitchState)
    ensures s.enabled == enabled ==> r == s
    ensures s.enabled != enabled ==>
      r == s.(enabled := enabled,
              curve := if enabled then s.inType else s.outType,
              easeTime := if enabled then s.inTime else s.outTime)
  {
    if s.enabled != enabled then
      s.(enabled := enabled,
         curve := if enabled then s.inType else s.outType,
         easeTime := if enabled then s.inTime else s.outTime)
    else
      s
  }

  /** The raw value after adding interval/easeTime in the current direction, before snapping. */
  function Advanced(s: SwitchState, interval: nat): real
    requires s.easeTime != 0.0
  {
    s.value + (interval as real / s.easeTime) * (if s.enabled then 1.0 else -1.0)
  }

  /** update: advance the value, then snap to 1 (enabled) or 0 (disabled) within the snap distance. */
  function Step(s: SwitchState, interval: nat): (r: SwitchState)
    requires s.easeTime != 0.0
    ensures r == s.(value := r.value)
    ensures s.enabled ==> r.value == 1.0 || (r.value == Advanced(s, interval) && r.value <= 1.0 - s.snapDist)
    ensures !s.enabled ==> r.value == 0.0 || (r.value == Advanced(s, interval) && r.value >= s.snapDist)
    ensures s.enabled && Advanced(s, interval) <= 1.0 - s.snapDist ==> r.value == Advanced(s, interval)
    ensures s.enabled && Advanced(s, interval) > 1.0 - s.snapDist ==> r.value == 1.0
    ensures !s.enabled && Advanced(s, interval) >= s.snapDist ==> r.value == Advanced(s, interval)
    ensures !s.enabled && Advanced(s, interval) < s.snapDist ==> r.value == 0.0
  {
    var v := Advanced(s, interval);
    if s.enabled && v > 1.0 - s.snapDist then s.(value := 1.0)
    else if !s.enabled && v < 0.0 + s.snapDist then s.(value := 0.0)
    else s.(value := v)
  }

  /** The value update returns: the active curve applied to the post-step raw value. */
  function Eased(s: SwitchState, ease: Easing): real
  {
    ease(s.curve, s.value)
  }

  lemma NewSwitchInv(inType: Curve, outType: Curve, inTime: real, outTime: real)
    requires 0.0 < inTime && 0.0 < outTime
    ensures Inv(NewSwitch(inType, outType, inTime, outTime))
  {
  }

  /** Toggling keeps the invariant. */
  lemma ToggleInv(s: SwitchState, enabled: bool)
    requires Inv(s)
    ensures Inv(Toggle(s, enabled))
  {
  }

  /** One update keeps the value in [0,1]. */
  lemma StepInv(s: SwitchState, interval: nat)
    requires Inv(s)
    ensures Inv(Step(s, interval))
  {
    var v := Advanced(s, interval);
    assert interval as real / s.easeTime >= 0.0;
  }

  /** While enabled an update never decreases the value; while disabled it never increases it. */
  lemma StepMonotone(s: SwitchState, interval: nat)
    requires Inv(s)
    ensures s.enabled ==> Step(s, interval).value >= s.value
    ensures !s.enabled ==> Step(s, interval).value <= s.value
  {
    assert interval as real / s.easeTime >= 0.0;
  }

  /** A single update whose interval covers the whole duration reaches the target exactly. */
  lemma FullIntervalReachesTarget(s: SwitchState, interval: nat)
    requires Inv(s)
    requires interval as real >= s.easeTime
    ensures Step(s, interval).value == (if s.enabled then 1.0 else 0.0)
  {
    assert interval as real / s.easeTime >= 1.0;
  }

  /** The operations a caller can apply to a switch. */
  datatype SwitchOp = SetEnabled(enabled: bool) | Update(interval: nat)

  function Apply(s: SwitchState, op: SwitchOp): SwitchState
    requires Inv(s)
  {
    match op
    case SetEnabled(b) => Toggle(s, b)
    case Update(i) => Step(s, i)
  }

  function ApplyAll(s: SwitchState, ops: seq<SwitchOp>): SwitchState
    requires Inv(s)
    decreases |ops|
  {
    if ops == [] then s
    else
      ToggleInv(s, if ops[0].SetEnabled? then ops[0].enabled else s.enabled);
      StepInv(s, if ops[0].Update? then ops[0].interval else 0);
      ApplyAll(Apply(s, ops[0]), ops[1..])
  }

  /** Any sequence of setEnabled/update calls keeps the value in [0,1]. */
  lemma {:induction false} ApplyAllInv(s: SwitchState, ops: seq<SwitchOp>)
    requires Inv(s)
    ensures Inv(ApplyAll(s, ops))
    ensures 0.0 <= ApplyAll(s, ops).value <= 1.0
    decreases |ops|
  {
    if ops != [] {
      match ops[0]
      case SetEnabled(b) => ToggleInv(s, b); ApplyAllInv(Apply(s, ops[0]), ops[1..]);
      case Update(i) => StepInv(s, i); ApplyAllInv(Apply(s, ops[0]), ops[1..]);
    }
  }

  /** Repeated updates without toggling. */
  function Updates(s: SwitchState, intervals: seq<nat>): SwitchState
    requires Inv(s)
    decreases |intervals|
  {
    if intervals == [] then s
    else StepInv(s, intervals[0]); Updates(Step(s, intervals[0]), intervals[1..])
  }

  function Sum(xs: seq<nat>): nat
  {
    if xs == [] then 0 else xs[0] + Sum(xs[1..])
  }

  /** Updates keep the enabled flag, curve and duration; an enabled switch at 1 stays at 1. */
  lemma {:induction false} UpdatesKeepFields(s: SwitchState, intervals: seq<nat>)
    requires Inv(s)
    ensures Updates(s, intervals) == s.(value := Updates(s, intervals).value)
    ensures Inv(Updates(s, intervals))
    ensures s.enabled && s.value == 1.0 ==> Updates(s, intervals).value == 1.0
    decreases |intervals|
  {
    if intervals != [] {
      StepInv(s, intervals[0]);
      StepMonotone(s, intervals[0]);
      UpdatesKeepFields(Step(s, intervals[0]), intervals[1..]);
    }
  }

  /**
   * While enabled, the value after a series of updates is either exactly 1 or the
   * starting value plus the elapsed time over the duration (nothing snapped yet).
   */
  lemma {:induction false} EnabledUpdatesAccumulate(s: SwitchState, intervals: seq<nat>)
    requires Inv(s) && s.enabled
    ensures Updates(s, intervals).value == 1.0
         || Updates(s, intervals).value == s.value + Sum(intervals) as real / s.easeTime
    decreases |intervals|
  {
    if intervals != [] {
      var s1 := Step(s, intervals[0]);
      StepInv(s, intervals[0]);
      if s1.value == 1.0 {
        UpdatesKeepFields(s1, intervals[1..]);
      } else {
        EnabledUpdatesAccumulate(s1, intervals[1..]);
        assert s1.value == s.value + intervals[0] as real / s.easeTime;
        assert Sum(intervals) == intervals[0] + Sum(intervals[1..]);
        DivAdd(intervals[0] as real, Sum(intervals[1..]) as real, s.easeTime);
      }
    }
  }

  /**
   * Before the snap band the switch only accumulates: while enabled, if the starting value
   * plus the elapsed time over the duration stays at or below 1 - snap, every update adds
   * its interval over the duration and nothing snaps, so the value is exactly that sum; in
   * particular, with a positive snap distance the switch has not reached 1.
   */
  lemma {:induction false} EnabledBeforeSnap(s: SwitchState, intervals: seq<nat>)
    requires Inv(s) && s.enabled
    requires s.value + Sum(intervals) as real / s.easeTime <= 1.0 - s.snapDist
    ensures Updates(s, intervals).value == s.value + Sum(intervals) as real / s.easeTime
    ensures s.snapDist > 0.0 ==> Updates(s, intervals).value < 1.0
    decreases |intervals|
  {
    if intervals != [] {
      var i0, rest := intervals[0], intervals[1..];
      assert Sum(intervals) == i0 + Sum(rest);
      DivAdd(i0 as real, Sum(rest) as real, s.easeTime);
      DivNonNeg(Sum(rest) as real, s.easeTime);
      var s1 := Step(s, i0);
      assert s1.value == s.value + i0 as real / s.easeTime;
      StepInv(s, i0);
      EnabledBeforeSnap(s1, rest);
    }
  }

  /** The disabled mirror: above the snap band every update subtracts its interval over the duration. */
  lemma {:induction false} DisabledBeforeSnap(s: SwitchState, intervals: seq<nat>)
    requires Inv(s) && !s.enabled
    requires s.value - Sum(intervals) as real / s.easeTime >= s.snapDist
    ensures Updates(s, intervals).value == s.value - Sum(intervals) as real / s.easeTime
    ensures s.snapDist > 0.0 ==> Updates(s, intervals).value > 0.0
    decreases |intervals|
  {
    if intervals != [] {
      var i0, rest := intervals[0], intervals[1..];
      assert Sum(intervals) == i0 + Sum(rest);
      DivAdd(i0 as real, Sum(rest) as real, s.easeTime);
      DivNonNeg(Sum(rest) as real, s.easeTime);
      var s1 := Step(s, i0);
      assert s1.value == s.value - i0 as real / s.easeTime;
      StepInv(s, i0);
      DisabledBeforeSnap(s1, rest);
    }
  }

  /**
   * Convergence: once enabled, updates whose intervals add up to at least the
   * duration leave the value at exactly 1, and the eased output at the curve's value for 1.
   */
  lemma EnabledConverges(s: SwitchState, intervals: seq<nat>, ease: Easing)
    requires Inv(s) && s.enabled
    requires Sum(intervals) as real >= s.easeTime
    ensures Updates(s, intervals).value == 1.0
    ensures Eased(Updates(s, intervals), ease) == ease(s.curve, 1.0)
  {
    EnabledUpdatesAccumulate(s, intervals);
    UpdatesKeepFields(s, intervals);
    DivAtLeastOne(Sum(intervals) as real, s.easeTime);
  }

  /** Arithmetic on elapsed time over a duration: it distributes over a sum of intervals. */
  lemma DivAdd(x: real, y: real, e: real)
    requires e != 0.0
    ensures (x + y) / e == x / e + y / e
  {
  }

  /** Elapsed time of at least a positive duration is at least one duration. */
  lemma DivAtLeastOne(x: real, e: real)
    requires 0.0 < e <= x
    ensures x / e >= 1.0
  {
  }

  /** Non-negative elapsed time over a positive duration is non-negative. */
  lemma DivNonNeg(x: real, e: real)
    requires 0.0 <= x && 0.0 < e
    ensures x / e >= 0.0
  {
  }

  /** The switch as a class whose fields setEnabled and update change in place. */
  class AnimatedSwitch {
    var enabled: bool
    var value: real
    var snapDist: real
    var inType: Curve
    var outType: Curve
    var curve: Curve
    var inTime: real
    var outTime: real
    var easeTime: real

    function State(): SwitchState
      reads this
    {
      SwitchState(enabled, value, snapDist, inType, outType, curve, inTime, outTime, easeTime)
    }

    ghost predicate Valid()
      reads this
    {
      Inv(State())
    }

    constructor (inType: Curve, outType: Curve, inTime: real, outTime: real)
      requires 0.0 < inTime && 0.0 < outTime
      ensures Valid()
      ensures State() == NewSwitch(inType, outType, inTime, outTime)
    {
      this.enabled := false;
      this.value := 0.0;
      this.snapDist := 0.01;
      this.inType := inType;
      this.outType := outType;
      this.curve := inType;
      this.inTime := inTime;
      this.outTime := outTime;
      this.easeTime := inTime;
    }

    method SetEnabled(enabled: bool)
      requires Valid()
      modifies this
      ensures Valid()
      ensures State() == Toggle(old(State()), enabled)
    {
      if this.enabled != enabled {
        this.enabled := enabled;
        curve := if this.enabled then inType else outType;
        easeTime := if this.enabled then inTime else outTime;
      }
      ToggleInv(old(State()), enabled);
    }

    method Update(interval: nat, ease: Easing) returns (eased: real)
      requires Valid()
      modifies this
      ensures Valid()
      ensures State() == Step(old(State()), interval)
      ensures eased == Eased(State(), ease)
    {
      var dir := if enabled then 1.0 else -1.0;
      value := value + (interval as real / easeTime) * dir;
      if enabled && value > 1.0 - snapDist {
        value := 1.0;
      } else if !enabled && value < 0.0 + snapDist {
        value := 0.0;
      }
      StepInv(old(State()), interval);
      eased := ease(curve, value);
    }
  }
}
