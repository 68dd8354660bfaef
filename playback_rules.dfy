/**
 * The arithmetic and the decisions of the sensor-reactive playback
 * controller, as pure functions over the values they read, together with
 * properties of whole streams of sensor samples.
 */
module PlaybackRules {
  import opened Options

  /** A gyro rate about z must exceed this magnitude (rad/s) before a seek. */
  const SeekThreshold: real := 1.0
  /** Seconds jumped by one gyro seek. */
  const SeekStep: real := 5.0
  /** Volume change per unit of rotation rate about x. */
  const VolumeGain: real := 0.05
  /** Displacement (metres) from the reference location that restarts playback. */
  const RestartDistance: real := 10.0

  /** A device location; its geodesic distance is supplied from outside. */
  datatype Loc = Loc(latitude: real, longitude: real)

  function Abs(x: real): (r: real) { if x < 0.0 then -x else x }
  function Min(a: real, b: real): (r: real) { if a <= b then a else b }
  function Max(a: real, b: real): (r: real) { if a >= b then a else b }

  // ---------------------------------------------------------------------
  // Gyro seek rule

  /**
   * The seek target that one rotation-rate sample about z asks for, given
   * the current playback time, or None when no seek is issued. The
   * `newTime != currentTime` guard never blocks: a seek is issued exactly
   * when the rate's magnitude exceeds the threshold.
   */
  function GyroSeek(rateZ: real, currentTime: real): (target: Option<real>)
    ensures target.Some? <==> Abs(rateZ) > SeekThreshold
    ensures target.Some? ==> target.value != currentTime
    ensures rateZ > SeekThreshold ==> target == Some(currentTime - SeekStep)
    ensures rateZ < -SeekThreshold ==> target == Some(currentTime + SeekStep)
  {
    if !(Abs(rateZ) > SeekThreshold) then None
    else
      var newSeconds := if rateZ > 0.0 then -SeekStep else SeekStep;
      var newTime := currentTime + newSeconds;
      if newTime != currentTime then Some(newTime) else None
  }

  /** Playback time after one gyro sample, with a player present. */
  function TimeAfterGyro(rateZ: real, position: real): (p: real)
    ensures Abs(rateZ) <= SeekThreshold ==> p == position
    ensures Abs(rateZ) > SeekThreshold ==> Abs(p - position) == SeekStep
    ensures rateZ > 0.0 ==> p <= position
    ensures rateZ < 0.0 ==> p >= position
  {
    GyroSeek(rateZ, position).GetOr(position)
  }

  // ---------------------------------------------------------------------
  // Volume rule

  /** `max(0, min(1, x))`: the point of [0, 1] nearest to x. */
  function Clamp01(x: real): (r: real)
    ensures 0.0 <= r <= 1.0
    ensures 0.0 <= x <= 1.0 ==> r == x
    ensures x < 0.0 ==> r == 0.0
    ensures x > 1.0 ==> r == 1.0
  {
    Max(0.0, Min(1.0, x))
  }

  /**
   * The volume after one rotation-rate sample about x: the current volume
   * moved by `rateX * 0.05`, kept inside [0, 1]. From a volume in [0, 1] a
   * non-negative rate never lowers it and a non-positive rate never raises it.
   */
  function NextVolume(currentVolume: real, rateX: real): (v: real)
    ensures 0.0 <= v <= 1.0
    ensures 0.0 <= currentVolume + rateX * VolumeGain <= 1.0 ==> v == currentVolume + rateX * VolumeGain
    ensures currentVolume + rateX * VolumeGain > 1.0 ==> v == 1.0
    ensures currentVolume + rateX * VolumeGain < 0.0 ==> v == 0.0
    ensures 0.0 <= currentVolume <= 1.0 && rateX >= 0.0 ==> currentVolume <= v
    ensures 0.0 <= currentVolume <= 1.0 && rateX <= 0.0 ==> v <= currentVolume
    ensures 0.0 <= currentVolume <= 1.0 && rateX == 0.0 ==> v == currentVolume
  {
    Clamp01(currentVolume + rateX * VolumeGain)
  }

  // ---------------------------------------------------------------------
  // Location-restart rule

  /** What one location callback decides: the new reference and whether playback restarts. */
  datatype LocationOutcome = LocationOutcome(reference: Option<Loc>, restart: bool)

  function Last<T>(s: seq<T>): (x: T)
    requires s != []
  {
    s[|s| - 1]
  }

  /**
   * One `didUpdateLocations` callback. Only the last sample of the batch is
   * looked at; the first sample ever received only seeds the reference; a
   * later one at distance >= 10 from the reference replaces it and restarts
   * playback; a nearer one changes nothing.
   */
  function LocationStep(reference: Option<Loc>, locations: seq<Loc>, dist: (Loc, Loc) -> real): (o: LocationOutcome)
    ensures locations == [] ==> o == LocationOutcome(reference, false)
    ensures o.reference.Some? <==> reference.Some? || locations != []
    ensures o.restart <==>
              reference.Some? && locations != [] && dist(Last(locations), reference.value) >= RestartDistance
    ensures o.reference != reference ==> locations != [] && o.reference == Some(Last(locations))
    ensures o.restart ==> o.reference == Some(Last(locations))
    ensures reference.Some? && !o.restart ==> o.reference == reference
    ensures reference.None? && locations != [] ==> !o.restart && o.reference == Some(Last(locations))
  {
    if locations == [] then LocationOutcome(reference, false)
    else
      var newLocation := Last(locations);
      match reference
      case Some(previous) =>
        if dist(newLocation, previous) >= RestartDistance then LocationOutcome(Some(newLocation), true)
        else LocationOutcome(reference, false)
      case None => LocationOutcome(Some(newLocation), false)
  }

  // ---------------------------------------------------------------------
  // Streams of gyro samples (player present throughout)

  function PositionAfter(position: real, ratesZ: seq<real>): (p: real)
    decreases |ratesZ|
  {
    if ratesZ == [] then position
    else PositionAfter(TimeAfterGyro(ratesZ[0], position), ratesZ[1..])
  }

  /** Samples that seek backwards (rate > 1). */
  function CountBackward(ratesZ: seq<real>): (n: nat)
  {
    if ratesZ == [] then 0
    else (if ratesZ[0] > SeekThreshold then 1 else 0) + CountBackward(ratesZ[1..])
  }

  /** Samples that seek forwards (rate < -1). */
  function CountForward(ratesZ: seq<real>): (n: nat)
  {
    if ratesZ == [] then 0
    else (if ratesZ[0] < -SeekThreshold then 1 else 0) + CountForward(ratesZ[1..])
  }

  /** After any stream of samples the playback time has moved 5 s back per fast positive rate and 5 s forward per fast negative rate. */
  lemma {:induction false} PositionAfterCounts(position: real, ratesZ: seq<real>)
    decreases |ratesZ|
    ensures PositionAfter(position, ratesZ)
            == position - SeekStep * (CountBackward(ratesZ) as real) + SeekStep * (CountForward(ratesZ) as real)
  {
    if ratesZ != [] {
      PositionAfterCounts(TimeAfterGyro(ratesZ[0], position), ratesZ[1..]);
    }
  }

  /** A stream of gentle rotations (|rate| <= 1) never moves playback. */
  lemma {:induction false} GentleRotationsNeverSeek(position: real, ratesZ: seq<real>)
    decreases |ratesZ|
    requires forall i :: 0 <= i < |ratesZ| ==> Abs(ratesZ[i]) <= SeekThreshold
    ensures PositionAfter(position, ratesZ) == position
  {
    if ratesZ != [] {
      GentleRotationsNeverSeek(position, ratesZ[1..]);
    }
  }

  // ---------------------------------------------------------------------
  // Streams of volume samples (player present throughout)

  function VolumeAfter(volume: real, ratesX: seq<real>): (v: real)
    decreases |ratesX|
  {
    if ratesX == [] then volume
    else VolumeAfter(NextVolume(volume, ratesX[0]), ratesX[1..])
  }

  /** From a volume in [0, 1], every stream of samples keeps the volume in [0, 1]. */
  lemma {:induction false} VolumeAfterInRange(volume: real, ratesX: seq<real>)
    decreases |ratesX|
    requires 0.0 <= volume <= 1.0
    ensures 0.0 <= VolumeAfter(volume, ratesX) <= 1.0
  {
    if ratesX != [] {
      VolumeAfterInRange(NextVolume(volume, ratesX[0]), ratesX[1..]);
    }
  }

  /** Tilting one way only never lowers the volume. */
  lemma {:induction false} VolumeRisesWithNonNegativeRates(volume: real, ratesX: seq<real>)
    decreases |ratesX|
    requires 0.0 <= volume <= 1.0
    requires forall i :: 0 <= i < |ratesX| ==> ratesX[i] >= 0.0
    ensures volume <= VolumeAfter(volume, ratesX) <= 1.0
  {
    if ratesX != [] {
      VolumeRisesWithNonNegativeRates(NextVolume(volume, ratesX[0]), ratesX[1..]);
    }
  }

  /** Tilting the other way only never raises the volume. */
  lemma {:induction false} VolumeFallsWithNonPositiveRates(volume: real, ratesX: seq<real>)
    decreases |ratesX|
    requires 0.0 <= volume <= 1.0
    requires forall i :: 0 <= i < |ratesX| ==> ratesX[i] <= 0.0
    ensures 0.0 <= VolumeAfter(volume, ratesX) <= volume
  {
    if ratesX != [] {
      VolumeFallsWithNonPositiveRates(NextVolume(volume, ratesX[0]), ratesX[1..]);
    }
  }

  // ---------------------------------------------------------------------
  // Streams of location callbacks

  function ReferenceAfter(reference: Option<Loc>, batches: seq<seq<Loc>>, dist: (Loc, Loc) -> real): (r: Option<Loc>)
    decreases |batches|
  {
    if batches == [] then reference
    else ReferenceAfter(LocationStep(reference, batches[0], dist).reference, batches[1..], dist)
  }

  function RestartCount(reference: Option<Loc>, batches: seq<seq<Loc>>, dist: (Loc, Loc) -> real): (n: nat)
    decreases |batches|
  {
    if batches == [] then 0
    else
      var o := LocationStep(reference, batches[0], dist);
      (if o.restart then 1 else 0) + RestartCount(o.reference, batches[1..], dist)
  }

  function NonEmptyBatches(batches: seq<seq<Loc>>): (n: nat)
  {
    if batches == [] then 0
    else (if batches[0] != [] then 1 else 0) + NonEmptyBatches(batches[1..])
  }

  /**
   * Only non-empty callbacks can restart playback, and when no reference is
   * known yet the first non-empty one is spent on seeding it.
   */
  lemma {:induction false} RestartsNeedASeed(reference: Option<Loc>, batches: seq<seq<Loc>>, dist: (Loc, Loc) -> real)
    decreases |batches|
    ensures RestartCount(reference, batches, dist) <= NonEmptyBatches(batches)
    ensures reference.None? && NonEmptyBatches(batches) > 0 ==>
              RestartCount(reference, batches, dist) < NonEmptyBatches(batches)
  {
    if batches != [] {
      RestartsNeedASeed(LocationStep(reference, batches[0], dist).reference, batches[1..], dist);
    }
  }

  /**
   * A device whose every reported position stays within 10 of the reference
   * never restarts playback, and the reference never moves.
   */
  lemma {:induction false} StayingNearNeverRestarts(seed: Loc, batches: seq<seq<Loc>>, dist: (Loc, Loc) -> real)
    decreases |batches|
    requires forall i :: 0 <= i < |batches| && batches[i] != [] ==> dist(Last(batches[i]), seed) < RestartDistance
    ensures RestartCount(Some(seed), batches, dist) == 0
    ensures ReferenceAfter(Some(seed), batches, dist) == Some(seed)
  {
    if batches != [] {
      assert LocationStep(Some(seed), batches[0], dist) == LocationOutcome(Some(seed), false);
      StayingNearNeverRestarts(seed, batches[1..], dist);
    }
  }
}
