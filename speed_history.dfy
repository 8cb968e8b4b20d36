/** The speed-history bookkeeping of the position callback: the previous position, the
    recorded samples, the cumulative average and the speed-driven volume. */
module SpeedHistory {
  import opened Wrappers
  import opened Narrative
  import opened VolumePolicy

  datatype Coordinate = Coordinate(latitude: real, longitude: real)

  /** One recorded displacement: when it was measured (ms) and how far it was (m). */
  datatype Sample = Sample(timestamp: int, distance: real)

  /** The fixed divisor of the average, `60 * 1000`, and the ms-per-minute of a time delta. */
  const Normalization: real := 60000.0

  /** The `reduce` of the pages: distances summed left to right, starting from 0. */
  function Total(h: seq<Sample>): real
  {
    if h == [] then 0.0 else Total(h[..|h| - 1]) + h[|h| - 1].distance
  }

  /** `averageSpeed` as the pages compute it: total distance over the fixed divisor. */
  function Average(h: seq<Sample>): real
  {
    Total(h) / Normalization
  }

  /** Distances are non-negative and timestamps strictly increase. */
  predicate WellFormed(h: seq<Sample>)
  {
    && (forall i :: 0 <= i < |h| ==> h[i].distance >= 0.0)
    && (forall i, j :: 0 <= i < j < |h| ==> h[i].timestamp < h[j].timestamp)
  }

  lemma {:induction false} TotalNonNegative(h: seq<Sample>)
    requires forall i :: 0 <= i < |h| ==> h[i].distance >= 0.0
    ensures Total(h) >= 0.0
  {
    if h != [] {
      TotalNonNegative(h[..|h| - 1]);
    }
  }

  lemma {:induction false} TotalConcat(a: seq<Sample>, b: seq<Sample>)
    ensures Total(a + b) == Total(a) + Total(b)
  {
    if b != [] {
      var b' := b[..|b| - 1];
      assert (a + b)[..|a + b| - 1] == a + b';
      TotalConcat(a, b');
    } else {
      assert a + b == a;
    }
  }

  lemma TotalRemove(h: seq<Sample>, k: nat)
    requires k < |h|
    ensures Total(h) == Total(h[..k] + h[k + 1..]) + h[k].distance
  {
    var a, x, b := h[..k], h[k], h[k + 1..];
    assert h == (a + [x]) + b;
    assert Total([x]) == x.distance by {
      assert [x][..0] == [];
    }
    calc {
      Total(h);
    == { TotalConcat(a + [x], b); }
      Total(a + [x]) + Total(b);
    == { TotalConcat(a, [x]); }
      Total(a) + x.distance + Total(b);
    == { TotalConcat(a, b); }
      Total(a + b) + x.distance;
    }
  }

  /** The average does not depend on the order the samples were summed in. */
  lemma {:induction false} TotalPermutation(h: seq<Sample>, g: seq<Sample>)
    requires multiset(h) == multiset(g)
    ensures Total(h) == Total(g)
    decreases |h|
  {
    if h == [] {
      assert |g| == |multiset(g)| == 0;
    } else {
      var n := |h| - 1;
      var x := h[n];
      assert h == h[..n] + [x];
      assert x in multiset(g);
      var k :| 0 <= k < |g| && g[k] == x;
      assert g == g[..k] + [x] + g[k + 1..];
      var g' := g[..k] + g[k + 1..];
      assert multiset(g) == multiset(g[..k]) + multiset{x} + multiset(g[k + 1..]);
      assert multiset(h) == multiset(h[..n]) + multiset{x};
      assert multiset(g') == multiset(g[..k]) + multiset(g[k + 1..]);
      assert multiset(h[..n]) == multiset(h) - multiset{x};
      assert multiset(g') == multiset(g) - multiset{x};
      TotalPermutation(h[..n], g');
      TotalRemove(g, k);
    }
  }

  lemma AverageOrderInsensitive(h: seq<Sample>, g: seq<Sample>)
    requires multiset(h) == multiset(g)
    ensures Average(h) == Average(g)
  {
    TotalPermutation(h, g);
  }

  /** The instantaneous speed in meters per minute: the distance over the minutes elapsed
      since the previous recorded sample. */
  function InstantSpeed(distance: real, now: int, last: int): (speed: real)
    requires now > last
    ensures distance >= 0.0 ==> speed >= 0.0
    ensures speed * (now - last) as real == distance * Normalization
  {
    distance / ((now - last) as real / Normalization)
  }

  /** The state the position callback reads and writes. */
  datatype Tracker = Tracker(lastPosition: Option<Coordinate>, samples: seq<Sample>,
                             average: real, volume: real)

  /** The state in which a session starts. */
  const Fresh: Tracker := Tracker(None, [], 0.0, 0.0)

  /** The invariant the callback keeps: the average is recomputed only on appends, so it is
      still zero while there are fewer than two samples; samples exist only after a position;
      the volume stays in [0, 1]. */
  predicate Consistent(t: Tracker)
  {
    && WellFormed(t.samples)
    && t.average == (if |t.samples| < 2 then 0.0 else Average(t.samples))
    && (t.samples != [] ==> t.lastPosition.Some?)
    && 0.0 <= t.volume <= 1.0
  }

  /** The source never guards a zero time delta: a sample that appends must come strictly
      after the last recorded one. */
  predicate Admissible(t: Tracker, now: int)
  {
    t.lastPosition.Some? && t.samples != [] ==> now > t.samples[|t.samples| - 1].timestamp
  }

  /** One position sample: `distance` from the previous position, measured at `now`, with
      the audio `playbackTime` ms into its track. */
  function Record(page: Page, t: Tracker, pos: Coordinate, now: int, distance: real,
                  playbackTime: real): Tracker
    requires Admissible(t, now)
  {
    if t.lastPosition.None? then
      t.(lastPosition := Some(pos))
    else if t.samples != [] then
      var speed := InstantSpeed(distance, now, t.samples[|t.samples| - 1].timestamp);
      var samples := t.samples + [Sample(now, distance)];
      Tracker(Some(pos), samples, Total(samples) / Normalization,
              AdjustVolume(page, speed, playbackTime))
    else
      t.(lastPosition := Some(pos), samples := [Sample(now, distance)])
  }

  lemma FreshIsConsistent()
    ensures Consistent(Fresh)
  {
  }

  /** Every sample keeps the invariant. */
  lemma RecordConsistent(page: Page, t: Tracker, pos: Coordinate, now: int, distance: real,
                         playbackTime: real)
    requires Consistent(t) && Admissible(t, now) && distance >= 0.0
    ensures Consistent(Record(page, t, pos, now, distance, playbackTime))
  {
  }

  /** The history is append-only: earlier samples are kept, at most one is added, and one is
      added exactly when there was a previous position. The position is always replaced. */
  lemma RecordAppendsOne(page: Page, t: Tracker, pos: Coordinate, now: int, distance: real,
                         playbackTime: real)
    requires Admissible(t, now)
    ensures var r := Record(page, t, pos, now, distance, playbackTime);
      && r.lastPosition == Some(pos)
      && r.samples[..|t.samples|] == t.samples
      && (t.lastPosition.Some? ==> r.samples == t.samples + [Sample(now, distance)])
      && (t.lastPosition.None? ==> r.samples == t.samples)
  {
  }

  /** With an earlier sample, the new average is the previous total plus the new distance
      over the divisor, and the volume is the page's policy at the instantaneous speed. */
  lemma RecordAverage(page: Page, t: Tracker, pos: Coordinate, now: int, distance: real,
                      playbackTime: real)
    requires Admissible(t, now) && t.lastPosition.Some? && t.samples != []
    ensures var r := Record(page, t, pos, now, distance, playbackTime);
      var last := t.samples[|t.samples| - 1].timestamp;
      && r.average * Normalization == Total(t.samples) + distance
      && r.volume == AdjustVolume(page, distance * Normalization / (now - last) as real, playbackTime)
  {
    var last := t.samples[|t.samples| - 1].timestamp;
    var samples := t.samples + [Sample(now, distance)];
    assert samples[..|samples| - 1] == t.samples;
    var speed := InstantSpeed(distance, now, last);
    assert speed == distance * Normalization / (now - last) as real;
  }

  /** The first distance only starts the history: average and volume are untouched. */
  lemma RecordFirstDistance(page: Page, t: Tracker, pos: Coordinate, now: int, distance: real,
                            playbackTime: real)
    requires t.lastPosition.Some? && t.samples == []
    ensures var r := Record(page, t, pos, now, distance, playbackTime);
      r.samples == [Sample(now, distance)] && r.average == t.average && r.volume == t.volume
  {
  }

  /** Without a previous position nothing but the position changes. */
  lemma RecordFirstPosition(page: Page, t: Tracker, pos: Coordinate, now: int, distance: real,
                            playbackTime: real)
    requires t.lastPosition.None?
    ensures Record(page, t, pos, now, distance, playbackTime) == t.(lastPosition := Some(pos))
  {
  }
}
