/**
 * The view model's playback state and the handlers that change it: play and
 * pause, the gyro handler (seek rule then volume rule) and the location
 * delegate callback.
 */
module VideoPlayerViewModel {
  import opened Options
  import opened PlaybackRules

  class PlaybackController {
    /** Whether the player has been created; `player` is nil until then. */
    var hasPlayer: bool
    /** The player's current time, in seconds (meaningful while hasPlayer). */
    var position: real
    /** The player's volume (meaningful while hasPlayer). */
    var volume: real
    /** Whether the player is playing (meaningful while hasPlayer). */
    var playing: bool
    /** The location the restart distance is measured from. */
    var reference: Option<Loc>

    /** The object invariant: a present player's volume lies in [0, 1]. Every method keeps it. */
    ghost predicate Valid()
      reads this
    {
      hasPlayer ==> 0.0 <= volume <= 1.0
    }

    /** No player and no reference location yet. */
    constructor ()
      ensures Valid()
      ensures !hasPlayer && reference == None
    {
      hasPlayer := false;
      position := 0.0;
      volume := 1.0;
      playing := false;
      reference := None;
    }

    /**
     * A new player for the downloaded file: at time zero with the player's
     * default full volume, then started. Sensor subscription is not modelled.
     */
    method AttachPlayer()
      modifies this`hasPlayer, this`position, this`volume, this`playing
      ensures Valid()
      ensures hasPlayer && position == 0.0 && volume == 1.0 && playing
    {
      hasPlayer := true;
      position := 0.0;
      volume := 1.0;
      playing := false;
      Play();
    }

    /** Starts playback; nothing happens without a player. */
    method Play()
      requires Valid()
      modifies this`playing
      ensures Valid()
      ensures playing == (hasPlayer || old(playing))
      ensures hasPlayer ==> playing
      ensures !hasPlayer ==> playing == old(playing)
    {
      if hasPlayer {
        playing := true;
      }
    }

    /** Pauses playback; nothing happens without a player. */
    method Pause()
      requires Valid()
      modifies this`playing
      ensures Valid()
      ensures playing == (!hasPlayer && old(playing))
      ensures hasPlayer ==> !playing
      ensures !hasPlayer ==> playing == old(playing)
    {
      if hasPlayer {
        playing := false;
      }
    }

    /** The seek rule for one rotation-rate sample about z. */
    method UpdateCurrentTime(rateZ: real)
      requires Valid()
      modifies this`position
      ensures Valid()
      ensures hasPlayer ==> position == TimeAfterGyro(rateZ, old(position))
      ensures !hasPlayer || Abs(rateZ) <= SeekThreshold ==> position == old(position)
      ensures hasPlayer && rateZ > SeekThreshold ==> position == old(position) - SeekStep
      ensures hasPlayer && rateZ < -SeekThreshold ==> position == old(position) + SeekStep
    {
      // the `guard abs(rateZ) > 1` of the source; GyroSeek repeats the test
      if !(Abs(rateZ) > SeekThreshold) {
        return;
      }
      var currentTime := if hasPlayer then position else 0.0;
      var target := GyroSeek(rateZ, currentTime);
      if target.Some? && hasPlayer {
        position := target.value;
      }
    }

    /** The volume rule for one rotation-rate sample about x. */
    method UpdateVolume(rateX: real)
      requires Valid()
      modifies this`volume
      ensures Valid()
      ensures hasPlayer ==> volume == NextVolume(old(volume), rateX)
      ensures !hasPlayer ==> volume == old(volume)
      ensures rateX >= 0.0 ==> volume >= old(volume)
      ensures rateX <= 0.0 ==> volume <= old(volume)
    {
      var currentVolume := if hasPlayer then volume else 1.0;
      var newVolume := NextVolume(currentVolume, rateX);
      if hasPlayer {
        volume := newVolume;
      }
    }

    /** One gyroscope sample: the seek rule on the z rate, then the volume rule on the x rate. */
    method OnGyro(rateZ: real, rateX: real)
      requires Valid()
      modifies this`position, this`volume
      ensures Valid()
      ensures hasPlayer ==> position == TimeAfterGyro(rateZ, old(position))
      ensures hasPlayer ==> volume == NextVolume(old(volume), rateX)
      ensures !hasPlayer ==> position == old(position) && volume == old(volume)
    {
      UpdateCurrentTime(rateZ);
      UpdateVolume(rateX);
    }

    /**
     * One location callback with the batch `locations`; `dist(a, b)` is the
     * platform's distance from a to b.
     */
    method OnLocations(locations: seq<Loc>, dist: (Loc, Loc) -> real)
      requires Valid()
      modifies this`position, this`playing, this`reference
      ensures Valid()
      ensures reference == LocationStep(old(reference), locations, dist).reference
      ensures LocationStep(old(reference), locations, dist).restart && hasPlayer ==> position == 0.0 && playing
      ensures !(LocationStep(old(reference), locations, dist).restart && hasPlayer) ==>
                position == old(position) && playing == old(playing)
    {
      if locations == [] {
        return;
      }
      var newLocation := Last(locations);
      match reference
      case Some(previousLocation) =>
        var distance := dist(newLocation, previousLocation);
        if distance >= RestartDistance {
          reference := Some(newLocation);
          if hasPlayer {
            position := 0.0;
          }
          Play();
        }
      case None =>
        reference := Some(newLocation);
    }
  }
}
