# Overplay playback controller in Dafny

Overplay is a small iOS app that downloads one video, plays it, and steers
playback from the device's sensors. This project models the sensor-reactive
part of its view model, `VideoPlayerViewModel`:

- **gyro seek rule**: a rotation rate about z whose magnitude exceeds 1
  seeks 5 s back (positive rate) or 5 s forward (negative rate);
- **volume rule**: the rotation rate about x, times 0.05, is added to the
  volume, which is clamped to [0, 1];
- **location restart**: the first location seeds a reference; a later one
  at distance at least 10 from it becomes the new reference, seeks to time
  zero and plays; a nearer one changes nothing;
- **play / pause**: forwarded to the player, and no-ops while there is none.

Layout:

- `options.dfy` (module `Options`): the Some/None type standing for Swift
  optionals.
- `playback_rules.dfy` (module `PlaybackRules`): the rules as pure functions
  (`GyroSeek`, `TimeAfterGyro`, `Clamp01`, `NextVolume`, `LocationStep`) and
  lemmas about whole streams of sensor samples.
- `video_player_view_model.dfy` (module `VideoPlayerViewModel`): class
  `PlaybackController`. It holds the player's state (`hasPlayer`, `position`,
  `volume`, `playing`) and the optional reference location. Its methods
  change that state in place, and each method's `ensures` ties the new state
  to the pure rules.

The player is optional in the source (`player?`), so every player update is
skipped while `hasPlayer` is false. Only the reference location can still
change then. Times, rates and volumes are reals. The platform's geodesic
distance is passed in as a function value `dist`. `dist(a, b)` is the
distance of `a` from `b`, in the argument order of the source.

Two points of the code shape the model:

- A location callback receives a batch of samples. Only `locations.last` is
  looked at (VideoPlayerViewModel.swift:116), and an empty batch does nothing.
- The seek is guarded by `newTime != currentTime` (VideoPlayerViewModel.swift:91).
  The offset is always ±5, so for a numeric current time the guard never
  blocks. `GyroSeek` proves it: a seek is issued exactly when |rate| > 1.

The position changes only by seeks. Playback does not advance it between
callbacks (see "Left out"), so the stream lemmas describe the seeks issued.

The fallbacks `?? CMTime.zero` and `?? 1.0` of the source are computed in
`UpdateCurrentTime` and `UpdateVolume`. Their results are never observable,
because every write that follows is skipped when no player exists.

## Model

| member | source | states |
|---|---|---|
| PlaybackRules.GyroSeek | Overplay/ViewModels/VideoPlayerViewModel.swift:86-94 | a seek is issued iff \|rateZ\| > 1 (the equality guard never blocks), the target always differs from the current time, and it is current − 5 for rateZ > 1 and current + 5 for rateZ < −1 |
| PlaybackRules.TimeAfterGyro | Overplay/ViewModels/VideoPlayerViewModel.swift:87-92 | with a player present, a gentle rate leaves the time unchanged, a fast one moves it by exactly 5 s, never forward for a positive rate and never back for a negative one |
| PlaybackRules.Clamp01 | Overplay/ViewModels/VideoPlayerViewModel.swift:98 | `max(0, min(1, x))` lies in [0, 1], is x inside the interval, 0 below it and 1 above it |
| PlaybackRules.NextVolume | Overplay/ViewModels/VideoPlayerViewModel.swift:96-99 | the new volume lies in [0, 1] for any rate and prior volume, equals old + 0.05·rateX within the bounds, saturates at exactly 1 above the range and exactly 0 below it, and from a volume in [0, 1] never decreases for rateX ≥ 0 and never increases for rateX ≤ 0 |
| PlaybackRules.LocationStep | Overplay/ViewModels/VideoPlayerViewModel.swift:115-127 | an empty batch changes nothing; with no reference the last sample seeds it without a restart; a restart happens iff a reference exists and the last sample is at distance ≥ 10, and then that sample becomes the reference; a near sample keeps the reference |
| PlaybackRules.PositionAfterCounts | Overplay/ViewModels/VideoPlayerViewModel.swift:86-94 | over any stream of z rates the seeks issued move the time by −5·(rates > 1) + 5·(rates < −1) |
| PlaybackRules.GentleRotationsNeverSeek | Overplay/ViewModels/VideoPlayerViewModel.swift:87 | a stream of rates all with \|rate\| ≤ 1 issues no seek, so no seek moves the time |
| PlaybackRules.VolumeAfterInRange | Overplay/ViewModels/VideoPlayerViewModel.swift:98 | from a volume in [0, 1], any stream of x rates keeps the volume in [0, 1] |
| PlaybackRules.VolumeRisesWithNonNegativeRates | Overplay/ViewModels/VideoPlayerViewModel.swift:98 | a stream of non-negative x rates never lowers the volume |
| PlaybackRules.VolumeFallsWithNonPositiveRates | Overplay/ViewModels/VideoPlayerViewModel.swift:98 | a stream of non-positive x rates never raises the volume |
| PlaybackRules.RestartsNeedASeed | Overplay/ViewModels/VideoPlayerViewModel.swift:116-126 | restarts are at most the number of non-empty callbacks, and strictly fewer when no reference was known at the start (the first sample only seeds) |
| PlaybackRules.StayingNearNeverRestarts | Overplay/ViewModels/VideoPlayerViewModel.swift:117-123 | if every callback's last sample is within distance 10 of the reference, playback never restarts and the reference never moves |
| VideoPlayerViewModel.PlaybackController.constructor | Overplay/ViewModels/VideoPlayerViewModel.swift:15-18 | a new view model has no player and no reference location |
| VideoPlayerViewModel.PlaybackController.AttachPlayer | Overplay/ViewModels/VideoPlayerViewModel.swift:63-65 | a new player starts at time 0 with full volume and is then played |
| VideoPlayerViewModel.PlaybackController.Play | Overplay/ViewModels/VideoPlayerViewModel.swift:40-42 | playing becomes true with a player; without one nothing changes |
| VideoPlayerViewModel.PlaybackController.Pause | Overplay/ViewModels/VideoPlayerViewModel.swift:44-46 | playing becomes false with a player; without one nothing changes |
| VideoPlayerViewModel.PlaybackController.UpdateCurrentTime | Overplay/ViewModels/VideoPlayerViewModel.swift:86-94 | with a player the time becomes TimeAfterGyro of the old time (−5 for rateZ > 1, +5 for rateZ < −1); with no player or \|rateZ\| ≤ 1 it is unchanged; nothing else changes |
| VideoPlayerViewModel.PlaybackController.UpdateVolume | Overplay/ViewModels/VideoPlayerViewModel.swift:96-100 | keeps the invariant Valid (a present player's volume in [0, 1]); with a player the volume becomes NextVolume of the old volume, so it never falls for rateX ≥ 0 and never rises for rateX ≤ 0; with no player it is unchanged; nothing else changes |
| VideoPlayerViewModel.PlaybackController.OnGyro | Overplay/ViewModels/VideoPlayerViewModel.swift:74-83 | one gyro sample applies the seek rule to the z rate, then the volume rule to the x rate; without a player neither position nor volume changes; the playing flag and the reference never change |
| VideoPlayerViewModel.PlaybackController.OnLocations | Overplay/ViewModels/VideoPlayerViewModel.swift:115-127 | the reference becomes LocationStep's; on a restart with a player the time becomes 0 and playback is on; otherwise time and playing are unchanged; the volume never changes |

## Left out

- Downloading the video and writing it to disk (`downloadVideo`): network and file-system I/O.
- Creating the `AVPlayer` from a file URL: a foreign call. `AttachPlayer` keeps only its effect on the state: time 0 and full volume, which are the player's defaults, then `play()`.
- Location and motion permissions, starting and stopping sensor updates, and the 0.1 s gyro interval (`init`, `requestLocationUpdates`, `startMotionUpdates` setup, `stopMotionUpdates`, `stopMonitoringLocation`): thin wrappers over CoreLocation and CoreMotion.
- The geodesic distance `CLLocation.distance(from:)`: its implementation is not visible, so it is a parameter.
- `Float`/`Double` rounding, the `Double`-to-`Float` conversion of the x rate and the `CMTime` timescale: the model uses exact reals.
- Non-numeric `CMTime` values (invalid, indefinite, ±infinity): adding 5 s to one gives the same value back, so the `!=` guard at VideoPlayerViewModel.swift:91 blocks the seek. The model's times are always numeric, so it does not capture this.
- Playback progress between callbacks and stopping at the end of the media: `position` changes only by seeks. The stream lemmas about the time therefore describe the seeks issued, not the clock of a playing player.
- What `AVPlayer` does with a seek target, such as clamping a negative time or running past the end: the source promises nothing about it, so the model's position is the target as issued.
- The main-actor isolation and the weak capture of the view model in the gyro handler: concurrency plumbing. The model treats callbacks as sequential method calls. A nil gyro sample (an error) does nothing at VideoPlayerViewModel.swift:75, the same as not calling `OnGyro`, and is not modelled.
- The SwiftUI views and the shake notification: layout, plus a broadcast that only forwards to `pause()`, which is modelled.
