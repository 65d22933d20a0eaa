/** The per-target pieces that src/main.py and src/main_sequential.py both implement,
    line for line: the 10-entry diagnostic history, the cooldown test on elapsed
    `timedelta.seconds`, the one-step counter decay and the printed drowsy rate. */
module Hysteresis {
  import opened Common
  import opened AdvancedDetector

  /** At most this many samples are kept per target. */
  const HistoryCapacity: nat := 10

  /** `timedelta.seconds` ranges over one day; whole days go to `.days`. */
  const SecondsPerDay: int := 86400

  /** One history entry: `{'timestamp', 'drowsy', 'confidence', 'details'}`. */
  datatype Sample = Sample(timestamp: int, drowsy: bool, confidence: real, details: Details)

  /** The thresholds read from the `detection` configuration section. */
  datatype Thresholds = Thresholds(confidenceThreshold: real, drowsyThreshold: int, alertCooldown: int)

  /** `confidence_threshold` 0.75, `drowsy_count_threshold` 5, `alert_cooldown` 300. */
  const DefaultThresholds := Thresholds(0.75, 5, 300)

  function Min(a: int, b: int): int {
    if a <= b then a else b
  }

  /** The last `min(|s|, n)` elements of `s`, in order. */
  function LastN<T>(s: seq<T>, n: nat): (r: seq<T>)
    ensures |r| == Min(|s|, n)
  {
    s[|s| - Min(|s|, n)..]
  }

  /** `history.append(sample)` followed by `history.pop(0)` when the list grew past 10. */
  function AppendHistory(h: seq<Sample>, s: Sample): (r: seq<Sample>)
    ensures |h| <= HistoryCapacity ==> |r| == Min(|h| + 1, HistoryCapacity)
    ensures |r| >= 1 && r[|r| - 1] == s
    ensures |h| <= HistoryCapacity ==> r == LastN(h + [s], HistoryCapacity)
  {
    var appended := h + [s];
    if |appended| > HistoryCapacity then appended[1..] else appended
  }

  /** The history after appending each of `xs` in turn. */
  function AppendAll(h: seq<Sample>, xs: seq<Sample>): seq<Sample>
    decreases |xs|
  {
    if xs == [] then h else AppendAll(AppendHistory(h, xs[0]), xs[1..])
  }

  /** Keeping the last n of a prefix first does not change the last n of the whole. */
  lemma LastNOfLastN<T>(a: seq<T>, b: seq<T>, n: nat)
    ensures LastN(LastN(a, n) + b, n) == LastN(a + b, n)
  {
    var la := LastN(a, n);
    var lhs := LastN(la + b, n);
    var rhs := LastN(a + b, n);
    assert |lhs| == |rhs|;
    forall k | 0 <= k < |lhs|
      ensures lhs[k] == rhs[k]
    {
      var i := |la + b| - |lhs| + k;
      var j := |a + b| - |rhs| + k;
      assert lhs[k] == (la + b)[i];
      assert rhs[k] == (a + b)[j];
      if i < |la| {
        assert (la + b)[i] == la[i] == a[|a| - |la| + i];
      } else {
        assert (la + b)[i] == b[i - |la|];
      }
    }
  }

  /** After any number of appends to a history of at most 10 entries, the history holds
      the last (at most 10) entries of everything seen, in arrival order. */
  lemma {:induction false} AppendAllKeepsLatest(h: seq<Sample>, xs: seq<Sample>)
    requires |h| <= HistoryCapacity
    ensures AppendAll(h, xs) == LastN(h + xs, HistoryCapacity)
    decreases |xs|
  {
    if xs == [] {
      assert h + xs == h;
    } else {
      var h' := AppendHistory(h, xs[0]);
      calc {
        AppendAll(h, xs);
        AppendAll(h', xs[1..]);
        { AppendAllKeepsLatest(h', xs[1..]); }
        LastN(h' + xs[1..], HistoryCapacity);
        LastN(LastN(h + [xs[0]], HistoryCapacity) + xs[1..], HistoryCapacity);
        { LastNOfLastN(h + [xs[0]], xs[1..], HistoryCapacity); }
        LastN((h + [xs[0]]) + xs[1..], HistoryCapacity);
        { assert (h + [xs[0]]) + xs[1..] == h + xs; }
        LastN(h + xs, HistoryCapacity);
      }
    }
  }

  /** From an empty history, n samples leave the last min(n, 10) of them (e.g. 15 leave the last 10). */
  lemma HistoryFromEmpty(xs: seq<Sample>)
    ensures AppendAll([], xs) == xs[|xs| - Min(|xs|, HistoryCapacity)..]
    ensures |AppendAll([], xs)| == Min(|xs|, HistoryCapacity)
  {
    AppendAllKeepsLatest([], xs);
    assert [] + xs == xs;
  }

  /** `(now - last).seconds`: elapsed seconds with whole days discarded. */
  function ElapsedSeconds(last: int, now: int): (r: int)
    ensures 0 <= r < SecondsPerDay
    ensures (now - last - r) % SecondsPerDay == 0
    ensures 0 <= now - last < SecondsPerDay ==> r == now - last
  {
    (now - last) % SecondsPerDay
  }

  /** `should_send_alert`: no alert yet, or at least `cooldown` elapsed `.seconds`. */
  function CooldownOver(lastAlert: Option<int>, now: int, cooldown: int): (r: bool)
    ensures lastAlert.None? ==> r
    ensures lastAlert.Some? && 0 <= now - lastAlert.value < SecondsPerDay ==>
              (r <==> now - lastAlert.value >= cooldown)
  {
    lastAlert.None? || ElapsedSeconds(lastAlert.value, now) >= cooldown
  }

  /** Because `.seconds` drops whole days, an alert a day and a few seconds after the
      previous one is still inside the cooldown window. */
  lemma CooldownForgetsDays(last: int, days: nat, extra: int, cooldown: int)
    requires 0 <= extra < cooldown <= SecondsPerDay
    ensures !CooldownOver(Some(last), last + days * SecondsPerDay + extra, cooldown)
  {
    var e := ElapsedSeconds(last, last + days * SecondsPerDay + extra);
    assert (days * SecondsPerDay + extra - e) % SecondsPerDay == 0;
    assert e == extra by {
      var q := (days * SecondsPerDay + extra - e) / SecondsPerDay;
      assert days * SecondsPerDay + extra - e == q * SecondsPerDay;
      assert extra - e == (q - days) * SecondsPerDay;
    }
  }

  /** With the default 300-second cooldown: an alert sent at t=0 blocks t=200 and
      allows t=301. */
  lemma CooldownScenario()
    ensures CooldownOver(None, 0, DefaultThresholds.alertCooldown)
    ensures !CooldownOver(Some(0), 200, DefaultThresholds.alertCooldown)
    ensures CooldownOver(Some(0), 301, DefaultThresholds.alertCooldown)
  {
  }

  /** The benign-tick update: one down, never below zero. */
  function Decay(count: nat): (r: nat)
    ensures count > 0 ==> r == count - 1
    ensures count == 0 ==> r == 0
  {
    if count > 0 then count - 1 else 0
  }

  /** A detection advances the counter only when drowsy and confident enough. */
  predicate CountsAsDrowsy(d: Detection, t: Thresholds) {
    d.isDrowsy && d.confidence >= t.confidenceThreshold
  }

  /** On the detector's own verdicts: with a confidence threshold in (0.6, 0.8], such as
      the default 0.75, a tick counts exactly when a face was seen with the head down;
      with one of at most 0.6 every drowsy verdict counts; above 0.95 none does. */
  lemma CountsAsDrowsyOnDetect(cfg: DetectorConfig, face: Option<FaceMeasures>, t: Thresholds)
    ensures var d := Detect(cfg, face);
            0.6 < t.confidenceThreshold <= 0.8 ==>
              (CountsAsDrowsy(d, t) <==> d.details.Measured? && d.details.headDown)
    ensures var d := Detect(cfg, face);
            t.confidenceThreshold <= 0.6 ==> (CountsAsDrowsy(d, t) <==> d.isDrowsy)
    ensures t.confidenceThreshold > 0.95 ==> !CountsAsDrowsy(Detect(cfg, face), t)
  {
    if 0.6 < t.confidenceThreshold <= 0.8 {
      HeadDownDecidesAtThreshold(cfg, face, t.confidenceThreshold);
    }
    if face.Some? {
      var d := Detect(cfg, face);
      var r := Judge(d.details.eyesClosed, d.details.headDown);
      assert d.isDrowsy == r.0 && d.confidence == r.1;
    }
  }

  /** The printed per-target rate `total_drowsy / total_checks * 100` (0 with no checks). */
  function DrowsyRate(totalDrowsy: nat, totalChecks: nat): (r: real)
    ensures totalDrowsy <= totalChecks ==> 0.0 <= r <= 100.0
    ensures totalChecks > 0 && totalDrowsy == totalChecks ==> r == 100.0
    ensures totalDrowsy == 0 ==> r == 0.0
  {
    if totalChecks > 0 then (totalDrowsy as real / totalChecks as real) * 100.0 else 0.0
  }
}
