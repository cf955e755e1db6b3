/** The alarm's volume logic: the `VolumeControl` object over a pygame sound
    and the `alarm` ramp (mqtt_stat/audio/__init__.py). Volumes are exact
    reals; the sound is a mutable cell holding its volume. */
module Audio {
  import opened Wrappers

  /** The `ValueError`s raised by the setters and by `alarm`, one per check. */
  datatype AudioError =
    | IncrementNotPositive        // "increment" must be greater than 0
    | IncrementNotBelowMax        // "increment" must be less than max_volume
    | MaxNotPositive              // "max_volume" must be greater than 0
    | MaxAboveOne                 // "max_volume" cannot exceed 1
    | MaxNotAboveIncrement        // "max_volume" must be greater than the increment
    | VolumeAboveMax              // the volume cannot be set above max_volume
    | VolumeBelowZero             // the volume cannot be set below 0.0
    | IntervalNotPositive         // "interval" must be greater than 0
    | OutOfUnitRange(arg: string) // <arg> must be between 0 and 1 inclusive

  /** The volume defaults of the module's `DEFAULTS` table. */
  const DefaultIncrement: real := 0.1
  const DefaultMax: real := 1.0
  const DefaultStart: real := 0.1

  /** The defaults of `alarm`'s own parameter list. */
  const AlarmDefaultInterval: real := 1.0
  const AlarmDefaultIncrement: real := 0.1
  const AlarmDefaultStart: real := 0.1
  const AlarmDefaultMax: real := 1.0

  function Min(a: real, b: real): real { if a <= b then a else b }
  function Max(a: real, b: real): real { if a >= b then a else b }

  // ---------------------------------------------------------------------
  // The checks of the three validating setters

  /** The `increment` setter's test against the current maximum. */
  function IncrementCheck(v: real, maxVolume: real): (r: Option<AudioError>)
    ensures r == None <==> 0.0 < v < maxVolume
    ensures v <= 0.0 ==> r == Some(IncrementNotPositive)
  {
    if v <= 0.0 then Some(IncrementNotPositive)
    else if v >= maxVolume then Some(IncrementNotBelowMax)
    else None
  }

  /** The `max_volume` setter's test against the current increment. */
  function MaxCheck(v: real, increment: real): (r: Option<AudioError>)
    ensures r == None <==> 0.0 < v <= 1.0 && increment < v
    ensures v <= 0.0 ==> r == Some(MaxNotPositive)
    ensures v > 1.0 ==> r == Some(MaxAboveOne)
  {
    if v <= 0.0 then Some(MaxNotPositive)
    else if v > 1.0 then Some(MaxAboveOne)
    else if v <= increment then Some(MaxNotAboveIncrement)
    else None
  }

  /** The `volume` setter's test; the upper bound is checked first. */
  function VolumeCheck(v: real, maxVolume: real): (r: Option<AudioError>)
    ensures r == None <==> 0.0 <= v <= maxVolume
    ensures v > maxVolume ==> r == Some(VolumeAboveMax)
  {
    if v > maxVolume then Some(VolumeAboveMax)
    else if v < 0.0 then Some(VolumeBelowZero)
    else None
  }

  /** `max(0, min(max_volume, v))`, the value `set_volume` stores. */
  function Clamp(v: real, maxVolume: real): (r: real)
    requires 0.0 <= maxVolume
    ensures 0.0 <= r <= maxVolume
    ensures 0.0 <= v <= maxVolume ==> r == v
    ensures v > maxVolume ==> r == maxVolume
    ensures v < 0.0 ==> r == 0.0
  {
    Max(0.0, Min(maxVolume, v))
  }

  /** `increment or self.increment`: `None` and `0` are falsy and fall back
      to the stored increment. */
  function EffectiveIncrement(given: Option<real>, stored: real): (r: real)
    ensures given == None || given == Some(0.0) ==> r == stored
    ensures given.Some? && given.value != 0.0 ==> r == given.value
  {
    match given
    case None => stored
    case Some(i) => if i != 0.0 then i else stored
  }

  /** A `pygame.mixer.Sound`, seen only through its volume. */
  class Sound {
    var volume: real

    constructor (volume: real)
      ensures this.volume == volume
    {
      this.volume := volume;
    }
  }

  class VolumeControl {
    const sound: Sound
    var increment: real
    var maxVolume: real
    /** `__volume`: the start volume is stored here and never read again. */
    const startVolume: real

    /** What the setters keep: a positive increment strictly below the maximum. */
    ghost predicate Valid()
      reads this
    {
      0.0 < increment < maxVolume
    }

    /** The allocation step of `__init__`, once its checks have passed. */
    constructor Init(sound: Sound, startVolume: real, maxVolume: real, increment: real)
      requires 0.0 < increment < maxVolume
      ensures Valid()
      ensures this.sound == sound && this.startVolume == startVolume
      ensures this.maxVolume == maxVolume && this.increment == increment
    {
      this.sound := sound;
      this.startVolume := startVolume;
      this.maxVolume := maxVolume;
      this.increment := increment;
    }

    /** `VolumeControl(sound, start_volume, max_volume, increment)`. The maximum is
        stored without checks; the increment goes through its setter, which raises
        unless it lies strictly between 0 and the maximum. The closing
        `sound.set_volume(self.volume)` writes back what the sound already holds, so
        the sound's volume is left as it was: the start volume is not applied. */
    static method New(sound: Sound, start: Option<real>, max: Option<real>, inc: Option<real>)
      returns (r: Result<VolumeControl, AudioError>)
      ensures var m, i := (if max.Some? then max.value else DefaultMax),
                          (if inc.Some? then inc.value else DefaultIncrement);
        && (r.Ok? <==> 0.0 < i < m)
        && (r.Err? ==> Some(r.error) == IncrementCheck(i, m))
        && (r.Ok? ==> fresh(r.value) && r.value.Valid() && r.value.sound == sound
                      && r.value.maxVolume == m && r.value.increment == i
                      && r.value.startVolume == (if start.Some? then start.value else DefaultStart))
      modifies sound
      ensures sound.volume == old(sound.volume)
    {
      var m := if max.Some? then max.value else DefaultMax;
      var i := if inc.Some? then inc.value else DefaultIncrement;
      var s := if start.Some? then start.value else DefaultStart;
      var check := IncrementCheck(i, m);
      if check.Some? {
        return Err(check.value);
      }
      var vc := new VolumeControl.Init(sound, s, m, i);
      vc.sound.volume := vc.sound.volume;
      r := Ok(vc);
    }

    /** `VolumeControl(...)` as its closing comment intends: the same checks,
        then the sound set to the start volume. */
    static method NewApplyingStart(sound: Sound, start: Option<real>, max: Option<real>, inc: Option<real>)
      returns (r: Result<VolumeControl, AudioError>)
      modifies sound
      ensures var m, i := (if max.Some? then max.value else DefaultMax),
                          (if inc.Some? then inc.value else DefaultIncrement);
        && (r.Ok? <==> 0.0 < i < m)
        && (r.Err? ==> Some(r.error) == IncrementCheck(i, m) && sound.volume == old(sound.volume))
        && (r.Ok? ==> fresh(r.value) && r.value.Valid() && r.value.sound == sound
                      && r.value.maxVolume == m && r.value.increment == i
                      && sound.volume == r.value.startVolume
                      && r.value.startVolume == (if start.Some? then start.value else DefaultStart))
    {
      var m := if max.Some? then max.value else DefaultMax;
      var i := if inc.Some? then inc.value else DefaultIncrement;
      var s := if start.Some? then start.value else DefaultStart;
      var check := IncrementCheck(i, m);
      if check.Some? {
        return Err(check.value);
      }
      var vc := new VolumeControl.Init(sound, s, m, i);
      vc.sound.volume := vc.startVolume;
      r := Ok(vc);
    }

    /** The `volume` property: what the sound reports. */
    function Volume(): real
      reads this, sound
    {
      sound.volume
    }

    /** The `increment` setter. */
    method SetIncrement(v: real) returns (r: Outcome<AudioError>)
      requires Valid()
      modifies this`increment
      ensures Valid()
      ensures r.Pass? <==> IncrementCheck(v, maxVolume) == None
      ensures r.Fail? ==> Some(r.error) == IncrementCheck(v, maxVolume)
      ensures increment == if r.Pass? then v else old(increment)
    {
      var check := IncrementCheck(v, maxVolume);
      if check.Some? {
        return Fail(check.value);
      }
      increment := v;
      r := Pass;
    }

    /** The `max_volume` setter. */
    method SetMaxVolume(v: real) returns (r: Outcome<AudioError>)
      requires Valid()
      modifies this`maxVolume
      ensures Valid()
      ensures r.Pass? <==> 0.0 < v <= 1.0 && increment < v
      ensures r.Fail? ==> Some(r.error) == MaxCheck(v, increment)
      ensures maxVolume == if r.Pass? then v else old(maxVolume)
    {
      var check := MaxCheck(v, increment);
      if check.Some? {
        return Fail(check.value);
      }
      maxVolume := v;
      r := Pass;
    }

    /** The `volume` setter: rejects a value above the maximum or below 0 and
        leaves the sound alone; otherwise the sound takes the new value. */
    method AssignVolume(v: real) returns (r: Outcome<AudioError>)
      modifies sound
      ensures r.Pass? <==> 0.0 <= v <= maxVolume
      ensures r.Fail? ==> Some(r.error) == VolumeCheck(v, maxVolume)
      ensures sound.volume == if r.Pass? then v else old(sound.volume)
    {
      var check := VolumeCheck(v, maxVolume);
      if check.Some? {
        return Fail(check.value);
      }
      sound.volume := v;
      r := Pass;
    }

    /** `decrease_volume(d)`: `self.volume -= d` through the checking setter, so
        the volume never goes below 0; a decrement that would, raises instead. */
    method DecreaseVolume(decrement: real) returns (r: Outcome<AudioError>)
      requires Valid()
      modifies sound
      ensures var target := old(sound.volume) - decrement;
        && (r.Pass? <==> 0.0 <= target <= maxVolume)
        && sound.volume == (if r.Pass? then target else old(sound.volume))
      ensures sound.volume >= 0.0 || sound.volume == old(sound.volume)
      ensures old(sound.volume) - decrement < 0.0 ==> r == Fail(VolumeBelowZero)
    {
      r := AssignVolume(Volume() - decrement);
    }

    /** `increase_volume(i)`: raises the volume by `i or self.increment`, never
        past the maximum. Only a negative step that would take the volume
        below 0 raises. */
    method IncreaseVolume(inc: Option<real>) returns (r: Outcome<AudioError>)
      modifies sound
      ensures var target := Min(maxVolume, old(sound.volume) + EffectiveIncrement(inc, increment));
        && target <= maxVolume
        && (r.Pass? <==> 0.0 <= target)
        && (r.Fail? ==> r.error == VolumeBelowZero)
        && sound.volume == (if r.Pass? then target else old(sound.volume))
      ensures r.Pass? ==> sound.volume <= maxVolume
    {
      var step := EffectiveIncrement(inc, increment);
      r := AssignVolume(Min(maxVolume, Volume() + step));
    }

    /** `set_volume(v)`: clamps into `[0, max_volume]`, so the checking setter
        it goes through never raises. */
    method SetVolume(v: real)
      requires Valid()
      modifies sound
      ensures sound.volume == Clamp(v, maxVolume)
      ensures 0.0 <= sound.volume <= maxVolume
    {
      var r := AssignVolume(Clamp(v, maxVolume));
      assert r.Pass?;
    }
  }

  // ---------------------------------------------------------------------
  // The `alarm` function

  predicate InUnitRange(x: real) { 0.0 <= x <= 1.0 }

  /** `alarm`'s checks, in their order: the interval must be positive, then
      each of the increment, start and maximum must lie in [0, 1]. */
  function AlarmParamsError(interval: real, inc: real, start: real, max: real): (r: Option<AudioError>)
    ensures r == None <==> interval > 0.0 && InUnitRange(inc) && InUnitRange(start) && InUnitRange(max)
    ensures interval <= 0.0 ==> r == Some(IntervalNotPositive)
    ensures interval > 0.0 && !InUnitRange(inc) ==> r == Some(OutOfUnitRange("volume_increment"))
    ensures interval > 0.0 && InUnitRange(inc) && !InUnitRange(start) ==> r == Some(OutOfUnitRange("volume_start"))
    ensures interval > 0.0 && InUnitRange(inc) && InUnitRange(start) && !InUnitRange(max) ==> r == Some(OutOfUnitRange("volume_max"))
  {
    if interval <= 0.0 then Some(IntervalNotPositive)
    else if !InUnitRange(inc) then Some(OutOfUnitRange("volume_increment"))
    else if !InUnitRange(start) then Some(OutOfUnitRange("volume_start"))
    else if !InUnitRange(max) then Some(OutOfUnitRange("volume_max"))
    else None
  }

  /** The volume at the `n`-th pass of the ramp loop: `volume_start`, then
      `v := min(v + volume_increment, volume_max)` after each pass. */
  function RampVolume(start: real, inc: real, max: real, n: nat): real
  {
    if n == 0 then start else Min(RampVolume(start, inc, max, n - 1) + inc, max)
  }

  /** The volumes of the first `n` passes. */
  function RampPrefix(start: real, inc: real, max: real, n: nat): (s: seq<real>)
    ensures |s| == n
    ensures forall k :: 0 <= k < n ==> s[k] == RampVolume(start, inc, max, k)
  {
    if n == 0 then [] else RampPrefix(start, inc, max, n - 1) + [RampVolume(start, inc, max, n - 1)]
  }

  /** The ramp in closed form: past the first pass the volume is
      `min(start + n * inc, max)`. */
  lemma {:induction false} RampClosedForm(start: real, inc: real, max: real, n: nat)
    requires inc >= 0.0
    ensures n >= 1 ==> RampVolume(start, inc, max, n) == Min(start + (n as real) * inc, max)
  {
    if n >= 2 {
      RampClosedForm(start, inc, max, n - 1);
    }
  }

  /** From the second pass on, the volume never exceeds the maximum. */
  lemma {:induction false} RampCapped(start: real, inc: real, max: real, n: nat)
    requires n >= 1
    ensures RampVolume(start, inc, max, n) <= max
  {
  }

  /** The ramp never goes down from the second pass on, and never at all when
      it starts at or below the maximum. */
  lemma {:induction false} RampNonDecreasing(start: real, inc: real, max: real, i: nat, j: nat)
    requires inc >= 0.0
    requires i <= j
    requires 1 <= i || start <= max
    ensures RampVolume(start, inc, max, i) <= RampVolume(start, inc, max, j)
  {
    if i < j {
      RampNonDecreasing(start, inc, max, i, j - 1);
      var v := RampVolume(start, inc, max, j - 1);
      if j - 1 >= 1 { RampCapped(start, inc, max, j - 1); }
      assert v <= max;
    }
  }

  /** A start above the maximum is not rejected by `alarm`'s checks, and then
      the second pass plays more quietly than the first. */
  lemma {:induction false} RampCanDropOnce()
    ensures AlarmParamsError(1.0, 0.1, 0.9, 0.5) == None
    ensures RampVolume(0.9, 0.1, 0.5, 1) < RampVolume(0.9, 0.1, 0.5, 0)
  {
  }

  /** With a positive increment the ramp reaches the maximum and stays there. */
  lemma {:induction false} RampReachesMax(start: real, inc: real, max: real, n: nat)
    requires inc > 0.0 && n >= 1
    requires (n as real) * inc >= max - start
    ensures RampVolume(start, inc, max, n) == max
  {
    RampClosedForm(start, inc, max, n);
  }

  /** With parameters that pass `alarm`'s checks every volume played lies in [0, 1]. */
  lemma {:induction false} RampInUnitRange(start: real, inc: real, max: real, n: nat)
    requires InUnitRange(inc) && InUnitRange(start) && InUnitRange(max)
    ensures InUnitRange(RampVolume(start, inc, max, n))
  {
    if n > 0 {
      RampInUnitRange(start, inc, max, n - 1);
    }
  }

  /** What one call of `alarm` did: the volumes passed to a successful
      `play_sound`, and whether a play raised (caught by the `except Exception`). */
  datatype AlarmRun = AlarmRun(played: seq<real>, playFailed: bool)

  /** `alarm(interval, volume_increment, volume_start, volume_max)`. The stop event
      is found clear `cancelAfter` times and then set. `play_sound` works on the
      module-level name `sound`; `soundBound` says whether that name is bound
      (the module shown never binds it, so the first play raises `NameError`,
      which the `except Exception` clause swallows). Sleeping and playback
      themselves are not modelled. */
  method Alarm(interval: real, inc: real, start: real, max: real, soundBound: bool, cancelAfter: nat)
    returns (r: Result<AlarmRun, AudioError>)
    ensures r.Err? <==> AlarmParamsError(interval, inc, start, max).Some?
    ensures r.Err? ==> Some(r.error) == AlarmParamsError(interval, inc, start, max)
    ensures r.Ok? && soundBound ==> r.value == AlarmRun(RampPrefix(start, inc, max, cancelAfter), false)
    ensures r.Ok? && !soundBound ==> r.value == AlarmRun([], cancelAfter > 0)
  {
    var check := AlarmParamsError(interval, inc, start, max);
    if check.Some? {
      return Err(check.value);
    }
    var volume := start;
    var played: seq<real> := [];
    var passes: nat := 0;
    var failed := false;
    while passes < cancelAfter
      invariant passes <= cancelAfter
      invariant volume == RampVolume(start, inc, max, passes)
      invariant played == RampPrefix(start, inc, max, passes)
      invariant !soundBound ==> played == [] && passes == 0
      invariant !failed
    {
      if !soundBound {
        failed := true;
        break;
      }
      played := played + [volume];
      volume := Min(volume + inc, max);
      passes := passes + 1;
    }
    r := Ok(AlarmRun(played, failed));
  }

  /** A sound at full volume handed to a control asked to start at the
      default 0.1 is still at full volume afterwards. */
  method StartVolumeIgnored() returns (v: real)
    ensures v == 1.0 && v != DefaultStart
  {
    var sound := new Sound(1.0);
    var r := VolumeControl.New(sound, None, None, None);
    v := sound.volume;
  }

  /** With the start volume applied the same sound starts at 0.1. */
  method StartVolumeApplied() returns (v: real)
    ensures v == DefaultStart
  {
    var sound := new Sound(1.0);
    var r := VolumeControl.NewApplyingStart(sound, None, None, None);
    v := sound.volume;
  }

  /** `find_service`'s alarm as written: `sound` is unbound, the first play
      raises, and nothing is ever heard, however long the alarm is left. */
  method FindAlarmAsWritten(cancelAfter: nat) returns (r: Result<AlarmRun, AudioError>)
    ensures r.Ok? && r.value.played == []
    ensures r.value.playFailed <==> cancelAfter > 0
  {
    r := Alarm(1.5, 0.05, 0.05, AlarmDefaultMax, false, cancelAfter);
  }

  /** `find_service`'s alarm with a sound bound: one play per pass, ramping
      from 0.05 and at full volume from the 20th pass (index 19) on. */
  method FindAlarm(cancelAfter: nat) returns (r: Result<AlarmRun, AudioError>)
    ensures r.Ok? && !r.value.playFailed && |r.value.played| == cancelAfter
    ensures cancelAfter > 0 ==> r.value.played[0] == 0.05
    ensures forall k :: 19 <= k < cancelAfter ==> r.value.played[k] == 1.0
  {
    r := Alarm(1.5, 0.05, 0.05, AlarmDefaultMax, true, cancelAfter);
    forall k | 19 <= k < cancelAfter
      ensures r.value.played[k] == 1.0
    {
      RampReachesMax(0.05, 0.05, AlarmDefaultMax, k);
    }
  }

  /** The parameters `find_service` passes to the alarm: interval 1.5,
      increment 0.05, start 0.05 and the default maximum. They pass the checks,
      and the ramp reaches full volume at the 20th pass (index 19). */
  lemma {:induction false} FindServiceParamsAccepted()
    ensures AlarmParamsError(1.5, 0.05, 0.05, AlarmDefaultMax) == None
    ensures RampVolume(0.05, 0.05, AlarmDefaultMax, 19) == 1.0
  {
    RampReachesMax(0.05, 0.05, AlarmDefaultMax, 19);
  }
}
