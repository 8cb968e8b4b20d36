# Running story: the session controller

The application plays a scripted audio story while the user runs. Three pages implement the
same controller with small differences: `src/pages/first-post.tsx`, `src/pages/good.tsx` and
`src/pages/RunningApp.tsx`. This project models that controller once. A `Page` value
(`FirstPost | Good | RunningApp`) selects each page's variant.

- **Narrative** (`narrative.dfy`): the segments `a`…`e`, each page's track path
  (`/<seg>.mp3` in first-post, `<seg>.mp3` elsewhere) and the `MUSIC_TIMES` table.
  - `nextMusicHandler` is `Next`. `a`→`b`, `b`→`c`, and from `c` the cumulative average picks
    the next segment: `d` (≥ 250), `c` again (≥ 180) or `e`. `d` and `e` have no case.
  - The transition table is also written out as data (`Rules`), and `Next` is proved to
    follow it.
  - First-post's result screens come `DwellMs` after `d` or `e`.
- **Volume policies** (`volume.dfy`):
  - the 3-bucket `adjustVolume` of first-post and RunningApp;
  - the 8-bucket `adjustVolume` of good, with its idle-recovery rule;
  - the volume effect, which forces 0.1 during `a`, `b` and `c` in first-post and RunningApp.

  The 3-bucket policy, and the 8-bucket one apart from idle recovery, are proved equal to a
  first-match lookup in a threshold table.
- **Speed history** (`speed_history.dfy`): the position callback's bookkeeping as a pure step,
  `Record`. It covers:
  - the previous position;
  - the history that starts as a singleton and then grows by appends;
  - average = Σdistance / 60000;
  - the instantaneous speed in metres per minute fed to the page's volume policy.

  `Consistent` is the invariant that `Record` keeps. The average is proved independent of the
  order of summation.
- **Session** (`session.dfy`): a class with the page's React state and its audio element
  (source, seek position, paused flag, volume, and a count of `play()` requests).
  - The handlers are `Start`, `OnTimer` (one timer expiry) and `OnPosition` (one sample).
  - Each handler makes its state change and then runs the effects that change triggers
    (`AfterRender`), as one step.
  - React skips a re-render when a state is set to its current value. So a timer that leaves
    the segment where it is (the `c` self-loop, and `d`/`e`) changes nothing.
  - The page subscribes to positions only while `c` plays, so a sample outside `c` changes
    nothing.
  - Three scenario methods run whole sessions: clearing, stalling, and good.tsx's quiet entry
    into `c`.

Distances arrive as non-negative reals. The times `now` (ms) and `playbackTime` (ms into the
current track) are parameters.

The model keeps these behaviours of the code, some of which look unintended:
- The history is never cleared, not even when `c` is played again.
- A sample with zero elapsed time is not skipped; the code divides by it. Here that case is a
  precondition instead.
- In first-post and RunningApp the speed-driven volume never reaches the audio during `c`.
- good.tsx starts in `a`, with no idle state.
- RunningApp calls `play()` whenever the track effect runs, even when the track did not change.
- The timers are never cancelled.

## Model

| member | source | states |
|---|---|---|
| Narrative.TrackPath | src/pages/first-post.tsx:110-113 | the audio source of a segment parses back to that segment (`SegmentOfTrack` is its inverse) |
| Narrative.TrackPathInjective | src/pages/good.tsx:103-106 | two segments share a track path iff they are equal, so the `src` comparison reloads exactly on a segment change |
| Narrative.SegmentOfTrackSound | src/pages/RunningApp.tsx:111-114 | a path that parses as a segment's track is exactly that segment's `<seg>.mp3` path |
| Narrative.MusicTime | src/pages/first-post.tsx:14-18 | `a`, `b`, `c` have timers (10000, 30000, 60000 ms, all within 10000..60000); `d` and `e` have no entry |
| Narrative.Delay | src/pages/first-post.tsx:139 | the delay handed to `setTimeout` is zero exactly for `d` and `e` (no table entry), and never longer than `c`'s 60000 ms |
| Narrative.NextFollowsRules | src/pages/first-post.tsx:119-136 | on timer expiry, every timed segment has exactly one applicable row of the transition table and moves to its target; untimed segments have no row and stay put |
| Narrative.GatedSuccessor | src/pages/first-post.tsx:127-135 | from `c`: `d` iff avg ≥ 250, `c` iff 180 ≤ avg < 250, `e` iff avg < 180 (thresholds inclusive, exactly one successor) |
| Narrative.UntimedIffAbsorbing | src/pages/RunningApp.tsx:121-141 | the segments without a timer entry are exactly those (`d`, `e`) that no average can move by one expiry reading the current segment and average |
| Narrative.OutcomeOnlyWhenAbsorbing | src/pages/first-post.tsx:143-165 | only first-post navigates, only from a segment that an expiry reading the current state cannot move: `d` → clear screen, `e` → game-over screen |
| VolumePolicy.VolumeSimple | src/pages/first-post.tsx:49-57 | the 3-bucket volume is always one of 1.0, 0.5, 0.1 |
| VolumePolicy.VolumeExtended | src/pages/good.tsx:29-39 | the 8-bucket volume is always within [0, 1] |
| VolumePolicy.AdjustVolume | src/pages/RunningApp.tsx:50-61 | each page's policy stays in [0, 1]; outside good.tsx it is one of 0.1, 0.5, 1.0 |
| VolumePolicy.Lookup | src/pages/good.tsx:31-38 | a first-match threshold lookup returns one of the table's volumes or the fallback |
| VolumePolicy.LookupFirstMatch | src/pages/good.tsx:31-37 | the first threshold the speed reaches decides the volume |
| VolumePolicy.LookupFallback | src/pages/good.tsx:38 | a speed below every threshold gets the fallback volume |
| VolumePolicy.SimpleIsTable | src/pages/RunningApp.tsx:54-60 | the 3-bucket policy equals the lookup in the table ≥150→0.1, ≥50→0.5, else 1.0 |
| VolumePolicy.ExtendedIsTable | src/pages/good.tsx:31-38 | apart from idle recovery, the 8-bucket policy equals the first-match lookup ≥250→0, ≥200→0.05, ≥150→0.1, ≥100→0.15, ≥60→0.2, ≥20→0.85, ≥10→1, else 0.05 |
| VolumePolicy.IdleRecovery | src/pages/good.tsx:30 | at speed 0, volume is 1 once more than 5000 ms have played (overriding every bucket) and 0.05 before |
| VolumePolicy.SimpleNonIncreasing | src/pages/first-post.tsx:50-56 | the 3-bucket volume never increases as the speed increases |
| VolumePolicy.ExtendedNonIncreasingFrom10 | src/pages/good.tsx:31-37 | from 10 m/min up, the 8-bucket volume never increases as the speed increases |
| VolumePolicy.ExtendedNotMonotone | src/pages/good.tsx:36-38 | below 10 m/min the 8-bucket volume is not monotone: 5 m/min is quieter than 15, which is louder than 30 |
| VolumePolicy.BackgroundMasksSpeed | src/pages/first-post.tsx:39-47 | in first-post and RunningApp the audio gets 0.1 during `a`, `b`, `c` whatever the volume state; in good.tsx, and in `d`/`e`, it gets the volume state |
| SpeedHistory.TotalNonNegative | src/pages/first-post.tsx:79 | the summed distance of non-negative samples is non-negative |
| SpeedHistory.TotalConcat | src/pages/good.tsx:83 | the sum over a concatenation is the sum of the sums |
| SpeedHistory.TotalRemove | src/pages/RunningApp.tsx:83 | removing one sample lowers the sum by exactly its distance |
| SpeedHistory.TotalPermutation | src/pages/first-post.tsx:79-80 | the total distance is the same for any reordering of the history |
| SpeedHistory.AverageOrderInsensitive | src/pages/good.tsx:83-84 | the average speed does not depend on sample order |
| SpeedHistory.InstantSpeed | src/pages/first-post.tsx:73-74 | the speed is non-negative and times the elapsed ms equals distance × 60000 (metres per minute) |
| SpeedHistory.FreshIsConsistent | src/pages/first-post.tsx:23-26 | the initial state (no position, empty history, average 0, volume 0) satisfies the invariant |
| SpeedHistory.RecordConsistent | src/pages/first-post.tsx:68-87 | every sample keeps the invariant: well-formed history, average 0 below two samples and Σdistance/60000 otherwise, volume in [0, 1] |
| SpeedHistory.RecordAppendsOne | src/pages/good.tsx:72-92 | earlier samples are kept; exactly one `{now, distance}` is appended iff there was a previous position; the position is always replaced |
| SpeedHistory.RecordAverage | src/pages/first-post.tsx:72-82 | with an earlier sample, average × 60000 = previous total + new distance, and the volume is the page's policy at distance × 60000 / elapsed ms |
| SpeedHistory.RecordFirstDistance | src/pages/RunningApp.tsx:87-89 | the first distance makes the history a singleton and leaves average and volume unchanged |
| SpeedHistory.RecordFirstPosition | src/pages/first-post.tsx:68-87 | without a previous position only the position changes |
| StorySession.Session.constructor | src/pages/good.tsx:20-27 | mounting: fresh bookkeeping; good.tsx loads and plays `a.mp3`, the others wait with no segment |
| StorySession.Session.AfterRender | src/pages/good.tsx:99-115 | the volume effect sets the audio to the applied volume; the track effect pauses, rewinds and reloads only when the source differs, sets 0.025 on loading `c` in good.tsx, and plays (in RunningApp on every run) |
| StorySession.Session.Start | src/pages/RunningApp.tsx:98-105 | first-post (pressed once, from the start screen) and RunningApp (on every press) move to `a`, load its track and play; good.tsx only plays; the bookkeeping is untouched |
| StorySession.Session.OnTimer | src/pages/first-post.tsx:106-141 | the segment becomes `Next(segment, average)`; history, average and position are untouched; a change reloads the track, and an unchanged segment changes nothing |
| StorySession.Session.OnPosition | src/pages/RunningApp.tsx:63-96 | during `c` the bookkeeping becomes `Record` of the old one, otherwise nothing changes; track and segment are untouched; RunningApp requests playback when the average changed |
| StorySession.Session.RecordSample | src/pages/RunningApp.tsx:72-91 | the callback body's step-by-step updates produce exactly `Record` and keep the invariant |
| StorySession.Session.Finish | src/pages/first-post.tsx:143-165 | a route exists only in first-post, in `d` or `e`, once 20000 ms have passed there: `d` → clear, `e` → game over |
| StorySession.ClearScenario | src/pages/first-post.tsx:97-141 | start, two timers, samples totalling 18,000,000 m (average 300), then the gated timer: the story ends in `d` and routes to the clear screen |
| StorySession.StallScenario | src/pages/first-post.tsx:119-153 | with no samples the gated timer fails the runner: `e`, then the game-over screen |
| StorySession.GoodGatedScenario | src/pages/good.tsx:99-110 | on good.tsx the audio enters `c` at 0.025; a later sample at 80 m/min sets it to 0.2 |

## Left out

- `calculateDistance` is not modelled. It is a floating-point approximation built from
  `Math.cos` and `Math.sqrt`, with an unclear unit scale. Each distance is a non-negative real
  parameter instead.
- `src/components/LocationProvider.tsx` is not part of this model. It is a geolocation polling
  wrapper that the story logic does not use.
- These browser services are parameters or are left out:
  - `navigator.geolocation`, `setInterval` and `Date`: `now` and the position are parameters.
  - The audio clock: `playbackTime` is a parameter, and `audioTime` holds only the seek
    position.
- The `play()` promises and `console.error` logging are not modelled; a play request is only
  counted.
- Timer interleaving is not modelled. Timers are never cleared, and the track effect schedules
  another one whenever the average changes. Each timer's `nextMusicHandler` captures the
  `currentMusic` and `averageSpeed` of the render that scheduled it. The model has one
  `OnTimer` per expiry, and it reads the current segment and average. So the model does not
  show these behaviours of the page:
  - The first timer to expire in `c` is the one scheduled on entering `c`. It holds average 0,
    so it always moves to `e` (first-post.tsx:133), whatever the runner did.
  - Timers scheduled by average changes during `c` expire later. They call
    `setCurrentMusic('d' | 'c' | 'e')` while the page is already in `e` or `d`. The page then
    leaves `d`/`e`, and the cleanup at first-post.tsx:149-151 cancels the game-over route.
  - `UntimedIffAbsorbing`, `OutcomeOnlyWhenAbsorbing`, `ClearScenario` and `StallScenario`
    are stated for expiries that read the current state.
- A consequence of React's bail-out: after the `c` self-loop no new timer is scheduled until the
  average changes. The model does not track which timers are pending.
- Browsers normalise `audio.src` to an absolute URL, so in the real pages the comparison always
  differs. The model compares the plain track path.
- In first-post.tsx the audio element exists only once the story runs. The model keeps the
  element's volume at 0 before that. The start click's own `play()` finds no element; the
  track effect plays `a`. The start target is rendered only before the story runs, so `Start`
  on first-post requires a session that is not running yet.
- JavaScript numbers are modelled as unbounded reals, with no NaN or Infinity.
- StorySession.Session.OnPosition: requires a strictly later timestamp when the sample would
  append. The source divides by the elapsed time without a check, and the model does not
  cover these cases:
  - zero elapsed time with a positive distance gives +Infinity: volume 0.1 in the 3-bucket
    policy, 0 in the 8-bucket one;
  - zero elapsed time with zero distance gives NaN, which fails every comparison: volume 0.1
    in the 3-bucket policy (its `else`), and the fallback 0.05 in the 8-bucket one
    (good.tsx:38);
  - a clock that steps back gives a negative speed: 1.0 in the 3-bucket policy, 0.05 in the
    8-bucket one.
- The presentation pages are not modelled: `index.tsx`, `second-post.tsx`, `gameover.tsx`,
  `gameclear.tsx`, the JSX, and the speed label. Navigation appears only as the route `Finish`
  returns.
