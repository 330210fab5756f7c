/**
 * The gesture SOS detector (`useGestures`): a burst of three or more taps
 * and a hard shake of the device both raise the emergency signal.
 *
 * Time is whole milliseconds. The two timers of the source (the 500 ms tap
 * debounce and the 2000 ms shake cooldown) are kept as deadlines; the
 * environment fires them by calling `FireTapTimer` and `FireCooldownTimer`.
 * Calls to the emergency callback and to the vibration motor are recorded in
 * the ghost log `signals`.
 */
module Gestures {
  import opened Common

  const TapGapMs: nat := 500
  const TapDebounceMs: nat := 500
  const SosTapCount: nat := 3
  const ShakeThreshold: real := 15.0
  const ShakeCooldownMs: nat := 2000
  const TapSosPattern: seq<nat> := [200, 100, 200, 100, 200]
  const ShakeSosPattern: seq<nat> := [300, 200, 300]

  /** What the detector asks of the outside world. */
  datatype Signal = Sos | Vibrate(pattern: seq<nat>)

  // ---------------------------------------------------------------------
  // Taps
  // ---------------------------------------------------------------------

  /** `handleTap`'s counting rule: a gap under 500 ms extends the burst, any other gap starts a new one. */
  function TapCountAfter(count: nat, lastTapTime: nat, now: nat): (r: nat)
    ensures now - lastTapTime < TapGapMs ==> r == count + 1
    ensures now - lastTapTime >= TapGapMs ==> r == 1
  {
    if now - lastTapTime < TapGapMs then count + 1 else 1
  }

  /** The time of the previous tap as the hook remembers it (0 before any tap). */
  function LastTapTime(times: seq<nat>): nat
  {
    if times == [] then 0 else times[|times| - 1]
  }

  /**
   * The tap count after taps at `times`, starting from the hook's initial
   * state: zero before any tap, afterwards between one and the number of taps.
   */
  function CountAfterTaps(times: seq<nat>): (r: nat)
    ensures times == [] ==> r == 0
    ensures times != [] ==> 1 <= r <= |times|
  {
    if times == [] then 0
    else TapCountAfter(CountAfterTaps(times[..|times| - 1]), LastTapTime(times[..|times| - 1]), times[|times| - 1])
  }

  /** Every gap between consecutive taps from index `from` on is shorter than 500 ms. */
  ghost predicate CloseGaps(times: seq<nat>, from: nat)
  {
    forall j :: from < j < |times| ==> times[j] - times[j - 1] < TapGapMs
  }

  /**
   * The count is the length of the final burst: the longest run of trailing
   * taps separated by gaps under 500 ms. A burst never straddles a longer gap.
   */
  lemma {:induction false} CountIsFinalBurst(times: seq<nat>)
    ensures CloseGaps(times, |times| - CountAfterTaps(times))
    ensures 0 < CountAfterTaps(times) < |times| ==>
              times[|times| - CountAfterTaps(times)] - times[|times| - CountAfterTaps(times) - 1] >= TapGapMs
  {
    if |times| > 0 {
      var n := |times|;
      var prefix := times[..n - 1];
      CountIsFinalBurst(prefix);
      var k := CountAfterTaps(times);
      assert k == TapCountAfter(CountAfterTaps(prefix), LastTapTime(prefix), times[n - 1]);
      if n > 1 {
        assert LastTapTime(prefix) == times[n - 2];
      }
      if n == 1 || times[n - 1] - times[n - 2] >= TapGapMs {
        assert k == 1;
      } else {
        assert k == CountAfterTaps(prefix) + 1;
        forall j | n - k < j < n ensures times[j] - times[j - 1] < TapGapMs {
          if j < n - 1 {
            assert prefix[j] == times[j] && prefix[j - 1] == times[j - 1];
          }
        }
        if k < n {
          assert prefix[n - k] == times[n - k] && prefix[n - k - 1] == times[n - k - 1];
        }
      }
    }
  }

  // ---------------------------------------------------------------------
  // Shakes
  // ---------------------------------------------------------------------

  /** A retained motion sample: acceleration including gravity on each axis. */
  datatype Sample = Sample(x: real, y: real, z: real)

  const Origin := Sample(0.0, 0.0, 0.0)

  /** `accelerationIncludingGravity` as delivered; any axis may be missing. */
  datatype Acceleration = Acceleration(x: Option<real>, y: Option<real>, z: Option<real>)

  /** Missing axes read as 0; present ones are taken as delivered. */
  function ToSample(a: Acceleration): (s: Sample)
    ensures a.x.Some? ==> s.x == a.x.value
    ensures a.y.Some? ==> s.y == a.y.value
    ensures a.z.Some? ==> s.z == a.z.value
    ensures a.x.None? ==> s.x == 0.0
    ensures a.y.None? ==> s.y == 0.0
    ensures a.z.None? ==> s.z == 0.0
  {
    Sample(a.x.GetOr(0.0), a.y.GetOr(0.0), a.z.GetOr(0.0))
  }

  function Abs(r: real): real { if r < 0.0 then -r else r }

  /** |dx| + |dy| + |dz| between two samples. */
  function ShakeMagnitude(prev: Sample, cur: Sample): (m: real)
    ensures m >= 0.0
    ensures m == 0.0 <==> prev == cur
  {
    Abs(cur.x - prev.x) + Abs(cur.y - prev.y) + Abs(cur.z - prev.z)
  }

  /**
   * A sample is a shake when it moved strictly more than the threshold: a
   * move of exactly 15 is not one, a shake always changes the sample, and the
   * test does not depend on the order of the two samples.
   */
  predicate IsShake(prev: Sample, cur: Sample)
    ensures ShakeMagnitude(prev, cur) <= ShakeThreshold ==> !IsShake(prev, cur)
    ensures IsShake(prev, cur) ==> prev != cur
    ensures IsShake(prev, cur) <==> ShakeMagnitude(cur, prev) > ShakeThreshold
  {
    ShakeMagnitude(prev, cur) > ShakeThreshold
  }

  // ---------------------------------------------------------------------
  // The detector
  // ---------------------------------------------------------------------

  class GestureDetector {
    /** The motion listener is registered (no permission needed, or permission granted). */
    const motionEnabled: bool
    /** `navigator.vibrate` exists. */
    const canVibrate: bool

    var tapCount: nat
    var lastTapTime: nat
    /** Deadline of the pending tap debounce timer, if one is armed. */
    var tapDeadline: Option<nat>
    var shakeDetected: bool
    /** Deadline of the pending cooldown timer, if one is armed. */
    var cooldownDeadline: Option<nat>
    /** The one retained motion sample. */
    var last: Sample

    ghost var signals: seq<Signal>

    /** A debounce timer is armed exactly while taps are counted; a cooldown timer exactly while cooling down. */
    ghost predicate Valid()
      reads this
    {
      && (tapDeadline.Some? <==> tapCount > 0)
      && (cooldownDeadline.Some? <==> shakeDetected)
    }

    constructor (motionEnabled: bool, canVibrate: bool)
      ensures Valid()
      ensures this.motionEnabled == motionEnabled && this.canVibrate == canVibrate
      ensures tapCount == 0 && lastTapTime == 0 && tapDeadline == None
      ensures !shakeDetected && cooldownDeadline == None && last == Origin
      ensures signals == []
    {
      this.motionEnabled := motionEnabled;
      this.canVibrate := canVibrate;
      tapCount, lastTapTime, tapDeadline := 0, 0, None;
      shakeDetected, cooldownDeadline, last := false, None, Origin;
      signals := [];
    }

    /** One emergency: the callback, then the vibration pattern when the device can vibrate. */
    function SosSignals(pattern: seq<nat>): seq<Signal>
    {
      [Sos] + (if canVibrate then [Vibrate(pattern)] else [])
    }

    /**
     * `handleTap` at time `now`. The debounce timer is re-armed when the count
     * changes (the effect that owns it depends on the count).
     */
    method Tap(now: nat)
      requires Valid()
      modifies this`tapCount, this`lastTapTime, this`tapDeadline
      ensures Valid()
      ensures now - old(lastTapTime) < TapGapMs ==> tapCount == old(tapCount) + 1
      ensures now - old(lastTapTime) >= TapGapMs ==> tapCount == 1
      ensures tapCount == TapCountAfter(old(tapCount), old(lastTapTime), now)
      ensures lastTapTime == now
      ensures tapDeadline == if tapCount != old(tapCount) then Some(now + TapDebounceMs) else old(tapDeadline)
    {
      var count := TapCountAfter(tapCount, lastTapTime, now);
      if count != tapCount {
        tapDeadline := Some(now + TapDebounceMs);
      }
      tapCount := count;
      lastTapTime := now;
    }

    /** The debounce timer fires: SOS when at least three taps were counted; the count always resets. */
    method FireTapTimer()
      requires Valid() && tapDeadline.Some?
      modifies this`tapCount, this`tapDeadline, this`signals
      ensures Valid()
      ensures tapCount == 0 && tapDeadline == None
      ensures old(tapCount) >= SosTapCount ==> signals == old(signals) + SosSignals(TapSosPattern)
      ensures old(tapCount) < SosTapCount ==> signals == old(signals)
    {
      if tapCount >= SosTapCount {
        signals := signals + SosSignals(TapSosPattern);
      }
      tapCount := 0;
      tapDeadline := None;
    }

    /**
     * `handleDeviceMotion` at time `now` (`reading` is None when the event has no
     * acceleration). A shake outside the cooldown raises SOS and starts the
     * cooldown; the listener is then re-registered, which resets the retained
     * sample to the origin. Otherwise the new sample is retained.
     */
    method OnMotion(now: nat, reading: Option<Acceleration>)
      requires Valid()
      modifies this`shakeDetected, this`cooldownDeadline, this`last, this`signals
      ensures Valid()
      ensures !motionEnabled || reading.None? ==>
        && shakeDetected == old(shakeDetected) && cooldownDeadline == old(cooldownDeadline)
        && last == old(last) && signals == old(signals)
      ensures motionEnabled && reading.Some? && IsShake(old(last), ToSample(reading.value)) && !old(shakeDetected) ==>
        && shakeDetected && cooldownDeadline == Some(now + ShakeCooldownMs)
        && last == Origin && signals == old(signals) + SosSignals(ShakeSosPattern)
      ensures motionEnabled && reading.Some? && !(IsShake(old(last), ToSample(reading.value)) && !old(shakeDetected)) ==>
        && shakeDetected == old(shakeDetected) && cooldownDeadline == old(cooldownDeadline)
        && last == ToSample(reading.value) && signals == old(signals)
    {
      if !motionEnabled || reading.None? {
        return;
      }
      var sample := ToSample(reading.value);
      if IsShake(last, sample) && !shakeDetected {
        shakeDetected := true;
        signals := signals + SosSignals(ShakeSosPattern);
        cooldownDeadline := Some(now + ShakeCooldownMs);
        last := Origin;
      } else {
        last := sample;
      }
    }

    /** The cooldown timer fires: shakes count again, from a fresh origin sample. */
    method FireCooldownTimer()
      requires Valid() && cooldownDeadline.Some?
      modifies this`shakeDetected, this`cooldownDeadline, this`last
      ensures Valid()
      ensures !shakeDetected && cooldownDeadline == None && last == Origin
    {
      shakeDetected := false;
      cooldownDeadline := None;
      last := Origin;
    }
  }

  /** Taps at 0, 200 and 400 ms, then the debounce: one SOS, and the count is 0 again. */
  method TripleTapRaisesOneSos()
  {
    var d := new GestureDetector(true, true);
    d.Tap(0);
    d.Tap(200);
    d.Tap(400);
    assert d.tapCount == 3 && d.tapDeadline == Some(900);
    d.FireTapTimer();
    assert d.signals == [Sos, Vibrate(TapSosPattern)];
    assert d.tapCount == 0;
  }

  /** Taps at 0 and 600 ms: the second tap starts a new burst of one, so the debounce stays silent. */
  method SlowTapsRaiseNothing()
  {
    var d := new GestureDetector(true, true);
    d.Tap(0);
    d.Tap(600);
    assert d.tapCount == 1;
    d.FireTapTimer();
    assert d.signals == [];
  }

  /** A reading of 20 on one axis, taken from the origin, moves 20 and so is a shake. */
  lemma HardReadingIsShake()
    ensures IsShake(Origin, ToSample(Acceleration(Some(20.0), None, None)))
  {
    assert ToSample(Acceleration(Some(20.0), None, None)) == Sample(20.0, 0.0, 0.0);
    assert ShakeMagnitude(Origin, Sample(20.0, 0.0, 0.0)) == 20.0;
  }

  /** A shake raises SOS once; a second shake inside the cooldown is ignored, one after it is not. */
  method ShakeCooldownSuppressesRepeat()
  {
    var d := new GestureDetector(true, false);
    var hard := Some(Acceleration(Some(20.0), None, None));
    HardReadingIsShake();
    d.OnMotion(1000, hard);
    assert d.signals == [Sos] && d.cooldownDeadline == Some(3000);
    d.OnMotion(1500, hard);
    assert d.signals == [Sos];
    d.FireCooldownTimer();
    d.OnMotion(3100, hard);
    assert d.signals == [Sos, Sos];
  }
}
