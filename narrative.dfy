/** The narrative of the running story: the segments `a` … `e`, the track each one plays,
    how long its timer runs, and the segment that follows when the timer expires. */
module Narrative {
  import opened Wrappers

  /** The three pages that each implement the story controller, with small differences. */
  datatype Page = FirstPost | Good | RunningApp

  /** Segments `a` (intro), `b`, `c` (speed-gated), `d` (clear) and `e` (game over). */
  datatype Segment = A | B | C | D | E

  /** The average speed from which the gated segment is cleared. */
  const ClearThreshold: real := 250.0
  /** The average speed from which the gated segment is played again instead of failing. */
  const RetryThreshold: real := 180.0
  /** How long `d` and `e` play before the page navigates to its result screen. */
  const DwellMs: nat := 20000

  function Letter(s: Segment): char
  {
    match s
    case A => 'a'
    case B => 'b'
    case C => 'c'
    case D => 'd'
    case E => 'e'
  }

  function SegmentOfLetter(c: char): Option<Segment>
  {
    if c == 'a' then Some(A)
    else if c == 'b' then Some(B)
    else if c == 'c' then Some(C)
    else if c == 'd' then Some(D)
    else if c == 'e' then Some(E)
    else None
  }

  /** first-post.tsx loads `/<seg>.mp3`; the other two pages load `<seg>.mp3`. */
  function Prefix(page: Page): string
  {
    if page == FirstPost then "/" else ""
  }

  /** The inverse of TrackPath: which segment a track path belongs to, if any. */
  function SegmentOfTrack(page: Page, path: string): Option<Segment>
  {
    var n := |Prefix(page)|;
    if |path| == n + 5 && path[..n] == Prefix(page) && path[n + 1..] == ".mp3"
    then SegmentOfLetter(path[n])
    else None
  }

  /** The audio source of a segment; it names that segment and no other. */
  function TrackPath(page: Page, s: Segment): (path: string)
    ensures SegmentOfTrack(page, path) == Some(s)
    ensures path != ""
  {
    var path := Prefix(page) + [Letter(s)] + ".mp3";
    assert path[..|Prefix(page)|] == Prefix(page);
    assert path[|Prefix(page)| + 1..] == ".mp3";
    path
  }

  /** Two segments share a track path only if they are the same segment, so comparing the
      audio source with the requested path detects exactly a change of segment. */
  lemma TrackPathInjective(page: Page, s: Segment, t: Segment)
    ensures TrackPath(page, s) == TrackPath(page, t) <==> s == t
  {
  }

  /** A path that parses as a segment's track is that segment's track path. */
  lemma SegmentOfTrackSound(page: Page, path: string, s: Segment)
    requires SegmentOfTrack(page, path) == Some(s)
    ensures path == TrackPath(page, s)
  {
  }

  /** MUSIC_TIMES: the timer of `a`, `b` and `c`; `d` and `e` have no entry. */
  function MusicTime(s: Segment): (t: Option<nat>)
    ensures t.Some? <==> s != D && s != E
    ensures t.Some? ==> 10000 <= t.value <= 60000
  {
    match s
    case A => Some(10000)
    case B => Some(30000)
    case C => Some(60000)
    case D => None
    case E => None
  }

  /** The delay the page actually hands to `setTimeout`: a missing entry is `undefined`,
      which the timer treats as zero. Only the terminal segments get a zero delay, and no
      segment waits longer than the gated one, whose timer is 60000 ms. */
  function Delay(s: Segment): (d: nat)
    ensures d == 0 <==> s == D || s == E
    ensures d <= 60000
  {
    match MusicTime(s)
    case Some(t) => t
    case None => 0
  }

  /** nextMusicHandler: the segment after `s` when its timer expires with the given
      cumulative average speed. `d` and `e` have no case, so they stay put. */
  function Next(s: Segment, average: real): Segment
  {
    match s
    case A => B
    case B => C
    case C =>
      if average >= ClearThreshold then D
      else if average >= RetryThreshold then C
      else E
    case D => D
    case E => E
  }

  /** The segment a page starts in: good.tsx starts in `a`; the other two pages start with
      no segment and wait for the start button. */
  function InitialSegment(page: Page): Option<Segment>
  {
    if page == Good then Some(A) else None
  }

  /** The transition table written as data: the guard on the average speed under which each
      row fires. It is the reference definition Next is checked against. */
  datatype Guard = Always | AtLeast(lo: real) | InRange(lo: real, hi: real) | Below(hi: real)

  predicate Holds(g: Guard, average: real)
  {
    match g
    case Always => true
    case AtLeast(lo) => lo <= average
    case InRange(lo, hi) => lo <= average < hi
    case Below(hi) => average < hi
  }

  datatype Rule = Rule(from: Segment, guard: Guard, to: Segment)

  const Rules: seq<Rule> := [
    Rule(A, Always, B),
    Rule(B, Always, C),
    Rule(C, AtLeast(ClearThreshold), D),
    Rule(C, InRange(RetryThreshold, ClearThreshold), C),
    Rule(C, Below(RetryThreshold), E)
  ]

  predicate Fires(i: int, s: Segment, average: real)
  {
    0 <= i < |Rules| && Rules[i].from == s && Holds(Rules[i].guard, average)
  }

  /** Next follows the table: exactly one row fires for every timed segment and Next takes
      its target; no row fires for an untimed segment and Next leaves it where it is. */
  lemma NextFollowsRules(s: Segment, average: real)
    ensures forall i :: Fires(i, s, average) ==> Next(s, average) == Rules[i].to
    ensures forall i, j :: Fires(i, s, average) && Fires(j, s, average) ==> i == j
    ensures (exists i :: Fires(i, s, average)) <==> MusicTime(s).Some?
    ensures MusicTime(s).None? ==> Next(s, average) == s
  {
    match s
    case A => assert Fires(0, s, average);
    case B => assert Fires(1, s, average);
    case C =>
      if average >= ClearThreshold {
        assert Fires(2, s, average);
      } else if average >= RetryThreshold {
        assert Fires(3, s, average);
      } else {
        assert Fires(4, s, average);
      }
    case D =>
    case E =>
  }

  /** The gated segment has exactly one successor, the thresholds being inclusive. */
  lemma GatedSuccessor(average: real)
    ensures Next(C, average) == D <==> average >= ClearThreshold
    ensures Next(C, average) == C <==> RetryThreshold <= average < ClearThreshold
    ensures Next(C, average) == E <==> average < RetryThreshold
  {
  }

  /** The segments without a timer entry are exactly those that no average speed can move
      by one timer expiry that reads the current segment and average. (On the page, a stale
      timer that captured `c` can still move `d` or `e`; see the README.) */
  lemma UntimedIffAbsorbing(s: Segment)
    ensures MusicTime(s).None? <==> forall average :: Next(s, average) == s
  {
    if MusicTime(s).Some? {
      assert Next(s, 0.0) != s;
    }
  }

  /** The result screens of first-post.tsx, reached `DwellMs` after entering `d` or `e`. */
  datatype Route = GameClear | GameOver

  function Outcome(page: Page, s: Segment): Option<Route>
  {
    if page == FirstPost && s == D then Some(GameClear)
    else if page == FirstPost && s == E then Some(GameOver)
    else None
  }

  /** Only first-post navigates, only from a segment that an expiry reading the current
      state cannot move, and `d` is the clear. */
  lemma OutcomeOnlyWhenAbsorbing(page: Page, s: Segment)
    ensures Outcome(page, s).Some? ==> page == FirstPost && forall average :: Next(s, average) == s
    ensures Outcome(page, s) == Some(GameClear) <==> page == FirstPost && s == D
    ensures Outcome(page, s) == Some(GameOver) <==> page == FirstPost && s == E
  {
  }
}
