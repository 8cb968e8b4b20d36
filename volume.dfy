/** The volume policies: `adjustVolume`, a step function from speed (meters per minute) to
    a volume, and the rule that decides what volume actually reaches the audio element. */
module VolumePolicy {
  import opened Wrappers
  import opened Narrative

  /** The volume first-post.tsx and RunningApp.tsx force while `a`, `b` or `c` plays. */
  const BackgroundVolume: real := 0.1
  /** The volume good.tsx sets when it loads the track of `c`. */
  const GatedEntryVolume: real := 0.025
  /** Playback time (ms) after which a stalled runner gets full volume back in good.tsx. */
  const IdleRecoveryMs: real := 5000.0

  /** The 3-bucket `adjustVolume` of first-post.tsx and RunningApp.tsx; it ignores the
      playback time. */
  function VolumeSimple(speed: real): (v: real)
    ensures v == 1.0 || v == 0.5 || v == 0.1
  {
    if speed < 50.0 then 1.0
    else if speed < 150.0 then 0.5
    else 0.1
  }

  /** The 8-bucket `adjustVolume` of good.tsx, with its idle-recovery rule first. */
  function VolumeExtended(speed: real, playbackTime: real): (v: real)
    ensures 0.0 <= v <= 1.0
  {
    if playbackTime > IdleRecoveryMs && speed == 0.0 then 1.0
    else if speed >= 250.0 then 0.0
    else if speed >= 200.0 then 0.05
    else if speed >= 150.0 then 0.1
    else if speed >= 100.0 then 0.15
    else if speed >= 60.0 then 0.2
    else if speed >= 20.0 then 0.85
    else if speed >= 10.0 then 1.0
    else 0.05
  }

  /** The policy a page uses. */
  function AdjustVolume(page: Page, speed: real, playbackTime: real): (v: real)
    ensures 0.0 <= v <= 1.0
    ensures page != Good ==> v == 0.1 || v == 0.5 || v == 1.0
  {
    if page == Good then VolumeExtended(speed, playbackTime) else VolumeSimple(speed)
  }

  /** The volume effect: what the audio element is set to for a segment and a volume state. */
  function AppliedVolume(page: Page, current: Option<Segment>, volume: real): real
  {
    if page != Good && current.Some? && current.value in {A, B, C} then BackgroundVolume
    else volume
  }

  /** A threshold table: the first row whose threshold the speed reaches gives the volume. */
  datatype Bucket = Bucket(atLeast: real, volume: real)

  const SimpleBuckets: seq<Bucket> := [Bucket(150.0, 0.1), Bucket(50.0, 0.5)]
  const SimpleFallback: real := 1.0

  const ExtendedBuckets: seq<Bucket> := [
    Bucket(250.0, 0.0), Bucket(200.0, 0.05), Bucket(150.0, 0.1), Bucket(100.0, 0.15),
    Bucket(60.0, 0.2), Bucket(20.0, 0.85), Bucket(10.0, 1.0)
  ]
  const ExtendedFallback: real := 0.05

  /** First-match lookup; its result is always one of the table's volumes or the fallback. */
  function Lookup(buckets: seq<Bucket>, fallback: real, speed: real): (v: real)
    ensures v == fallback || exists i :: 0 <= i < |buckets| && v == buckets[i].volume
  {
    if buckets == [] then fallback
    else if speed >= buckets[0].atLeast then buckets[0].volume
    else
      var v := Lookup(buckets[1..], fallback, speed);
      assert v != fallback ==> exists i :: 1 <= i < |buckets| && v == buckets[i].volume;
      v
  }

  /** The first row the speed reaches decides. */
  lemma {:induction false} LookupFirstMatch(buckets: seq<Bucket>, fallback: real, speed: real, k: nat)
    requires k < |buckets| && speed >= buckets[k].atLeast
    requires forall j :: 0 <= j < k ==> speed < buckets[j].atLeast
    ensures Lookup(buckets, fallback, speed) == buckets[k].volume
  {
    if k > 0 {
      LookupFirstMatch(buckets[1..], fallback, speed, k - 1);
    }
  }

  /** A speed below every threshold gets the fallback. */
  lemma {:induction false} LookupFallback(buckets: seq<Bucket>, fallback: real, speed: real)
    requires forall j :: 0 <= j < |buckets| ==> speed < buckets[j].atLeast
    ensures Lookup(buckets, fallback, speed) == fallback
  {
    if buckets != [] {
      LookupFallback(buckets[1..], fallback, speed);
    }
  }

  /** The 3-bucket policy is the first-match lookup in its table. */
  lemma SimpleIsTable(speed: real)
    ensures VolumeSimple(speed) == Lookup(SimpleBuckets, SimpleFallback, speed)
  {
  }

  /** Apart from idle recovery, the 8-bucket policy is the first-match lookup in its table. */
  lemma ExtendedIsTable(speed: real, playbackTime: real)
    requires !(playbackTime > IdleRecoveryMs && speed == 0.0)
    ensures VolumeExtended(speed, playbackTime) == Lookup(ExtendedBuckets, ExtendedFallback, speed)
  {
    var b := ExtendedBuckets;
    if speed >= 250.0 {
      LookupFirstMatch(b, ExtendedFallback, speed, 0);
    } else if speed >= 200.0 {
      LookupFirstMatch(b, ExtendedFallback, speed, 1);
    } else if speed >= 150.0 {
      LookupFirstMatch(b, ExtendedFallback, speed, 2);
    } else if speed >= 100.0 {
      LookupFirstMatch(b, ExtendedFallback, speed, 3);
    } else if speed >= 60.0 {
      LookupFirstMatch(b, ExtendedFallback, speed, 4);
    } else if speed >= 20.0 {
      LookupFirstMatch(b, ExtendedFallback, speed, 5);
    } else if speed >= 10.0 {
      LookupFirstMatch(b, ExtendedFallback, speed, 6);
    } else {
      LookupFallback(b, ExtendedFallback, speed);
    }
  }

  /** Idle recovery takes precedence over every bucket; a stall early in the track is quiet. */
  lemma IdleRecovery(playbackTime: real)
    ensures playbackTime > IdleRecoveryMs ==> VolumeExtended(0.0, playbackTime) == 1.0
    ensures playbackTime <= IdleRecoveryMs ==> VolumeExtended(0.0, playbackTime) == 0.05
  {
  }

  /** The 3-bucket policy never turns the volume up as the runner speeds up. */
  lemma SimpleNonIncreasing(slower: real, faster: real)
    requires slower <= faster
    ensures VolumeSimple(faster) <= VolumeSimple(slower)
  {
  }

  /** From 10 m/min up the 8-bucket policy never turns the volume up as speed grows ... */
  lemma ExtendedNonIncreasingFrom10(slower: real, faster: real, playbackTime: real)
    requires 10.0 <= slower <= faster
    ensures VolumeExtended(faster, playbackTime) <= VolumeExtended(slower, playbackTime)
  {
  }

  /** ... but it is not monotone below 10 m/min: a crawl is quieter than a walk. */
  lemma ExtendedNotMonotone()
    ensures VolumeExtended(5.0, 0.0) < VolumeExtended(15.0, 0.0)
    ensures VolumeExtended(15.0, 0.0) > VolumeExtended(30.0, 0.0)
  {
  }

  /** In first-post.tsx and RunningApp.tsx the speed-driven volume never reaches the audio
      during `a`, `b` or `c`; in good.tsx the audio always carries the volume state. */
  lemma BackgroundMasksSpeed(page: Page, s: Segment, v: real, w: real)
    ensures page != Good && s != D && s != E ==>
      AppliedVolume(page, Some(s), v) == AppliedVolume(page, Some(s), w) == BackgroundVolume
    ensures page == Good ==> AppliedVolume(page, Some(s), v) == v
    ensures s == D || s == E ==> AppliedVolume(page, Some(s), v) == v
  {
  }
}
