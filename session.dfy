/** The story controller of one page: its React state (`currentMusic`, `lastPosition`,
    `speedDatas`, `averageSpeed`, `volume`, `isRunning`) and its audio element, updated in
    place by the start button, the segment timer and the position feed. Each handler makes
    its state change and then runs the effects that change triggers, as one step. */
module StorySession {
  import opened Wrappers
  import opened Narrative
  import opened VolumePolicy
  import opened SpeedHistory

  class Session {
    /** Which of the three pages this session is. */
    const page: Page
    /** `isRunning` of first-post.tsx: the start screen has been left. */
    var running: bool
    /** `currentMusic`. */
    var current: Option<Segment>
    var lastPosition: Option<Coordinate>
    /** `speedDatas`. */
    var history: seq<Sample>
    var averageSpeed: real
    /** The speed-driven `volume` state. */
    var volume: real

    // The audio element: its source, its seek position (ms), whether it is paused, its
    // volume, and how many times `play()` was requested of it.
    var audioSrc: string
    var audioTime: real
    var paused: bool
    var audioVolume: real
    var playRequests: nat
    /** The delay of the segment timer the track effect scheduled last. */
    var timerDelay: nat

    /** The part of the state the position callback works on. */
    function Log(): Tracker
      reads this
    {
      Tracker(lastPosition, history, averageSpeed, volume)
    }

    ghost predicate Valid()
      reads this
    {
      && Consistent(Log())
      && audioVolume == AppliedVolume(page, current, volume)
      && (current.Some? ==> audioSrc == TrackPath(page, current.value) && timerDelay == Delay(current.value))
      && (current.None? ==> audioSrc == "" && lastPosition.None? && page != Good)
      && (page == FirstPost ==> (running <==> current.Some?))
      && (page != FirstPost ==> !running)
    }

    /** Mounting the page. good.tsx starts in `a`, so its effects load and play `a.mp3`. */
    constructor (page: Page)
      ensures Valid() && this.page == page
      ensures current == InitialSegment(page) && !running
      ensures Log() == Fresh
      ensures page == Good ==> audioSrc == "a.mp3" && audioTime == 0.0 && !paused && playRequests == 1
      ensures page != Good ==> audioSrc == "" && paused && playRequests == 0
    {
      this.page := page;
      running := false;
      current := InitialSegment(page);
      lastPosition := None;
      history := [];
      averageSpeed := 0.0;
      volume := 0.0;
      audioSrc := "";
      audioTime := 0.0;
      paused := true;
      audioVolume := 0.0;
      playRequests := 0;
      timerDelay := 0;
      new;
      AfterRender(page == Good);
    }

    /** The effects that run after a render: the volume effect always, the track effect when
        `currentMusic` or `averageSpeed` changed. The track effect reloads the audio only when
        its source is not the segment's track, and in good.tsx sets the quiet baseline volume
        when that track is `c`'s. */
    method AfterRender(trackDepsChanged: bool)
      modifies this
      ensures current == old(current) && running == old(running)
      ensures lastPosition == old(lastPosition) && history == old(history)
      ensures averageSpeed == old(averageSpeed)
      ensures trackDepsChanged && current.Some? ==>
        var path := TrackPath(page, current.value);
        var switched := old(audioSrc) != path;
        var plays := switched || page == RunningApp;
        && audioSrc == path
        && audioTime == (if switched then 0.0 else old(audioTime))
        && volume == (if switched && page == Good && current.value == C then GatedEntryVolume else old(volume))
        && paused == (if plays then false else old(paused))
        && playRequests == old(playRequests) + (if plays then 1 else 0)
        && timerDelay == Delay(current.value)
      ensures !(trackDepsChanged && current.Some?) ==>
        && audioSrc == old(audioSrc) && audioTime == old(audioTime) && volume == old(volume)
        && paused == old(paused) && playRequests == old(playRequests) && timerDelay == old(timerDelay)
      ensures audioVolume == AppliedVolume(page, current, volume)
    {
      if trackDepsChanged && current.Some? {
        var path := TrackPath(page, current.value);
        if audioSrc != path {
          paused := true;
          audioTime := 0.0;
          audioSrc := path;
          if page == Good && current.value == C {
            volume := GatedEntryVolume;
          }
          if page != RunningApp {
            paused := false;
            playRequests := playRequests + 1;
          }
        }
        if page == RunningApp {
          paused := false;
          playRequests := playRequests + 1;
        }
        timerDelay := Delay(current.value);
      }
      audioVolume := AppliedVolume(page, current, volume);
    }

    /** The start button. first-post.tsx starts the story at `a`; its start target is shown
        only until the story runs, so it is pressed at most once. RunningApp.tsx keeps its
        button and (re)starts the story at `a` on every press. good.tsx, already in `a`, only
        asks the audio to play. */
    method Start()
      requires Valid()
      requires page == FirstPost ==> !running
      modifies this
      ensures Valid() && Log() == old(Log())
      ensures current == (if page == Good then old(current) else Some(A))
      ensures running == (page == FirstPost)
      ensures old(current) != current ==> audioSrc == TrackPath(page, A) && audioTime == 0.0 && !paused
      ensures old(current) == current ==> audioSrc == old(audioSrc) && audioTime == old(audioTime)
      ensures page == Good ==> !paused && playRequests == old(playRequests) + 1
      ensures page == RunningApp ==>
        !paused && playRequests == old(playRequests) + (if old(current) != Some(A) then 2 else 1)
      ensures page == FirstPost ==> !paused && playRequests == old(playRequests) + 1
    {
      var before := current;
      // first-post.tsx renders its audio element only once the story runs, so its click
      // handler finds no element to play; the track effect plays the loaded track.
      if page != FirstPost {
        paused := false;
        playRequests := playRequests + 1;
      }
      if page != Good {
        current := Some(A);
      }
      if page == FirstPost {
        running := true;
      }
      if before.Some? {
        TrackPathInjective(page, before.value, A);
      }
      AfterRender(before != current);
    }

    /** One expiry of the segment timer: nextMusicHandler with the current average speed,
        then, if the segment changed, the effects of that change. Setting the same segment
        again (the `c` self-loop, or `d` and `e` which have no case) changes nothing. */
    method OnTimer()
      requires Valid() && current.Some?
      modifies this
      ensures Valid()
      ensures current == Some(Next(old(current).value, old(averageSpeed)))
      ensures running == old(running)
      ensures lastPosition == old(lastPosition) && history == old(history)
      ensures averageSpeed == old(averageSpeed)
      ensures volume == (if page == Good && old(current) != current && current == Some(C)
                         then GatedEntryVolume else old(volume))
      ensures old(current) != current ==>
        audioTime == 0.0 && !paused && playRequests == old(playRequests) + 1
      ensures old(current) == current ==>
        && audioSrc == old(audioSrc) && audioTime == old(audioTime) && paused == old(paused)
        && playRequests == old(playRequests) && audioVolume == old(audioVolume)
        && timerDelay == old(timerDelay)
    {
      var before := current.value;
      var next := Next(before, averageSpeed);
      TrackPathInjective(page, before, next);
      if next != before {
        current := Some(next);
        AfterRender(true);
      }
    }

    /** One position sample while `c` plays: `distance` from the previous position, taken at
        `now`, with the audio `playbackTime` ms into its track. Outside `c` the page has no
        position subscription and nothing happens. */
    method OnPosition(pos: Coordinate, now: int, distance: real, playbackTime: real)
      requires Valid() && distance >= 0.0
      requires current == Some(C) ==> Admissible(Log(), now)
      modifies this
      ensures Valid()
      ensures Log() == if old(current) == Some(C)
                       then Record(page, old(Log()), pos, now, distance, playbackTime)
                       else old(Log())
      ensures current == old(current) && running == old(running)
      ensures audioSrc == old(audioSrc) && audioTime == old(audioTime) && timerDelay == old(timerDelay)
      ensures var replayed := page == RunningApp && averageSpeed != old(averageSpeed);
        && paused == (if replayed then false else old(paused))
        && playRequests == old(playRequests) + (if replayed then 1 else 0)
    {
      if current != Some(C) {
        return;
      }
      var previousAverage := averageSpeed;
      RecordSample(pos, now, distance, playbackTime);
      AfterRender(averageSpeed != previousAverage);
    }

    /** The body of the position callback: the bookkeeping, before any effect runs. */
    method RecordSample(pos: Coordinate, now: int, distance: real, playbackTime: real)
      requires Consistent(Log()) && Admissible(Log(), now) && distance >= 0.0
      modifies this`lastPosition, this`history, this`averageSpeed, this`volume
      ensures Consistent(Log())
      ensures Log() == Record(page, old(Log()), pos, now, distance, playbackTime)
    {
      ghost var t := Log();
      RecordConsistent(page, t, pos, now, distance, playbackTime);
      if lastPosition.Some? {
        if |history| > 0 {
          var speed := InstantSpeed(distance, now, history[|history| - 1].timestamp);
          history := history + [Sample(now, distance)];
          averageSpeed := Total(history) / Normalization;
          volume := AdjustVolume(page, speed, playbackTime);
        } else {
          history := [Sample(now, distance)];
        }
      }
      lastPosition := Some(pos);
    }

    /** The navigation effect of first-post.tsx, `dwelt` ms after entering the current
        segment: the result screen once `d` or `e` has played for `DwellMs`. */
    function Finish(dwelt: nat): (route: Option<Route>)
      reads this
      ensures route.Some? ==> page == FirstPost && current.Some? && current.value in {D, E}
      ensures route.Some? ==> dwelt >= DwellMs
      ensures page == FirstPost && current == Some(D) && dwelt >= DwellMs ==> route == Some(GameClear)
      ensures page == FirstPost && current == Some(E) && dwelt >= DwellMs ==> route == Some(GameOver)
    {
      if current.Some? && dwelt >= DwellMs then Outcome(page, current.value) else None
    }
  }

  /** On first-post.tsx, with each timer expiry reading the current segment and average, a
      runner who averages 300 clears the story. (On the page itself the first expiry in `c`
      is the one scheduled on entering it, which captured average 0; see the README.) */
  method ClearScenario() returns (final: Option<Segment>, route: Option<Route>)
    ensures final == Some(D) && route == Some(GameClear)
  {
    var s := new Session(FirstPost);
    s.Start();
    s.OnTimer();
    s.OnTimer();
    assert s.current == Some(C);
    s.OnPosition(Coordinate(35.0, 139.0), 0, 0.0, 0.0);
    s.OnPosition(Coordinate(35.0, 139.1), 5000, 9000000.0, 5000.0);
    s.OnPosition(Coordinate(35.0, 139.2), 10000, 9000000.0, 10000.0);
    assert s.history == [Sample(5000, 9000000.0), Sample(10000, 9000000.0)];
    assert s.averageSpeed == 300.0;
    s.OnTimer();
    final := s.current;
    route := s.Finish(DwellMs);
  }

  /** A runner who never moves fails the gated segment on first-post.tsx, and the game-over
      screen follows `DwellMs` later. */
  method StallScenario() returns (final: Option<Segment>, route: Option<Route>)
    ensures final == Some(E) && route == Some(GameOver)
  {
    var s := new Session(FirstPost);
    s.Start();
    s.OnTimer();
    s.OnTimer();
    s.OnTimer();
    final := s.current;
    route := s.Finish(DwellMs);
  }

  /** On good.tsx the audio plays `c` at the quiet baseline until the first speed arrives,
      which then sets the volume through the 8-bucket policy. */
  method GoodGatedScenario() returns (entry: real, afterSample: real)
    ensures entry == GatedEntryVolume && afterSample == 0.2
  {
    var s := new Session(Good);
    s.OnTimer();
    s.OnTimer();
    entry := s.audioVolume;
    s.OnPosition(Coordinate(35.0, 139.0), 0, 0.0, 0.0);
    s.OnPosition(Coordinate(35.0, 139.1), 60000, 10.0, 1000.0);
    s.OnPosition(Coordinate(35.0, 139.2), 120000, 80.0, 61000.0);
    afterSample := s.audioVolume;
  }
}
