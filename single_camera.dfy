/** The single-camera variant (viewguard-new/viewguard_main.py): one webcam, one counter
    and one GitHub cooldown. The detector's counter rises on a drowsy frame and decays
    otherwise, and is never cleared by an alert, so once it reaches the threshold every
    frame with a drowsy face asks for an alert, and only the cooldown spaces the issues
    out. */
module SingleCamera {
  import opened Common
  import Hysteresis

  /** The values `load_settings` reads from the `detection` and `github` sections. */
  datatype Settings = Settings(earThreshold: real, headTiltThreshold: real, drowsyThreshold: int,
                               alertCooldown: int, githubEnabled: bool)

  /** `load_settings`: the file's values, or the built-in defaults when it cannot be read. */
  function LoadSettings(file: Option<Settings>): (s: Settings)
    ensures file.Some? ==> s == file.value
    ensures file.None? ==>
              && s.earThreshold == 0.2 && s.headTiltThreshold == 0.58
              && s.drowsyThreshold == 5 && s.alertCooldown == 300 && !s.githubEnabled
  {
    if file.Some? then file.value else Settings(0.2, 0.58, 5, 300, false)
  }

  /** What the face mesh yields for one frame: the mean eye aspect ratio and the head angle. */
  datatype Face = Face(ear: real, headTilt: real)

  /** Eyes below the EAR threshold or head past the tilt threshold, both strict. */
  predicate DrowsyFace(s: Settings, f: Face) {
    f.ear < s.earThreshold || f.headTilt > s.headTiltThreshold
  }

  /** The counter after one frame: unchanged without a face, one up on a drowsy face,
      otherwise one down but not below zero. */
  function CounterStep(s: Settings, count: nat, face: Option<Face>): (r: nat)
    ensures face.None? ==> r == count
    ensures face.Some? && DrowsyFace(s, face.value) ==> r == count + 1
    ensures face.Some? && !DrowsyFace(s, face.value) ==> r == Hysteresis.Decay(count) && r <= count
  {
    match face
    case None => count
    case Some(f) => if DrowsyFace(s, f) then count + 1 else Hysteresis.Decay(count)
  }

  /** What `send_github_alert` does at time `now` after the last successful issue at
      `last`: `(new last, whether the request was made)`. `urlRead` tells whether the
      body of a 201 answer yields its `html_url`; when it does not, the exception is
      caught before the alert time is stored. */
  function AlertStep(s: Settings, last: int, now: int, response: HttpOutcome, urlRead: bool): (r: (int, bool))
    ensures r.1 <==> s.githubEnabled && now - last >= s.alertCooldown
    ensures r.0 == if r.1 && response == Responded(201) && urlRead then now else last
  {
    if !s.githubEnabled then (last, false)
    else if now - last < s.alertCooldown then (last, false)
    else if response == Responded(201) && urlRead then (now, true)
    else (last, true)
  }

  /** `DrowsinessDetector`: the settings and the two fields the frame loop updates. */
  class DrowsinessDetector {
    const settings: Settings
    var drowsyCount: nat
    var lastAlertTime: int

    constructor (file: Option<Settings>)
      ensures settings == LoadSettings(file)
      ensures drowsyCount == 0 && lastAlertTime == 0
    {
      settings := LoadSettings(file);
      drowsyCount := 0;
      lastAlertTime := 0;
    }

    /** `detect_drowsiness`: without a face nothing changes and `(False, 0, 0)` comes back;
        with one, the counter moves as `CounterStep` says and the frame is reported drowsy
        exactly when the moved counter has reached the threshold. */
    method DetectDrowsiness(face: Option<Face>) returns (isDrowsy: bool, ear: real, headTilt: real)
      modifies this
      ensures drowsyCount == CounterStep(settings, old(drowsyCount), face)
      ensures lastAlertTime == old(lastAlertTime)
      ensures face.None? ==> drowsyCount == old(drowsyCount) && !isDrowsy && ear == 0.0 && headTilt == 0.0
      ensures face.Some? ==> ear == face.value.ear && headTilt == face.value.headTilt
      ensures isDrowsy <==> face.Some? && drowsyCount >= settings.drowsyThreshold
    {
      isDrowsy := false;
      ear := 0.0;
      headTilt := 0.0;
      if face.Some? {
        ear := face.value.ear;
        headTilt := face.value.headTilt;
        if ear < settings.earThreshold || headTilt > settings.headTiltThreshold {
          drowsyCount := drowsyCount + 1;
        } else {
          drowsyCount := if drowsyCount - 1 > 0 then drowsyCount - 1 else 0;
        }
        if drowsyCount >= settings.drowsyThreshold {
          isDrowsy := true;
        }
      }
    }

    /** `send_github_alert` at time `now`, `response` standing for what the GitHub API
        answered (or the exception it raised) and `urlRead` for whether a 201 body yields
        its `html_url`. Returns whether the request was made. */
    method SendGithubAlert(now: int, response: HttpOutcome, urlRead: bool) returns (posted: bool)
      modifies this
      ensures (lastAlertTime, posted) == AlertStep(settings, old(lastAlertTime), now, response, urlRead)
      ensures drowsyCount == old(drowsyCount)
    {
      posted := false;
      if !settings.githubEnabled {
        return;
      }
      if now - lastAlertTime < settings.alertCooldown {
        return;
      }
      posted := true;
      if response == Responded(201) && urlRead {
        lastAlertTime := now;
      }
    }
  }

  /** One pass of the `start` loop: whether a frame was read, the face in it, the clock,
      GitHub's answer to an alert and whether its body yields `html_url`, and whether 'q'
      was pressed. */
  datatype Frame = Frame(grabbed: bool, face: Option<Face>, now: int, response: HttpOutcome, urlRead: bool,
                         quitKey: bool)

  /** The detector's fields after some frames, with the number of `send_github_alert`
      calls and of requests actually made, and whether the loop has ended. */
  datatype CameraRun = CameraRun(count: nat, lastAlert: int, attempts: nat, posts: nat, stopped: bool)

  /** One pass of the loop: an unread frame ends it; otherwise the counter moves, a drowsy
      report calls `send_github_alert`, and 'q' ends the loop. */
  function FrameStep(s: Settings, r: CameraRun, f: Frame): (r': CameraRun)
    ensures r'.stopped <==> !f.grabbed || f.quitKey
    ensures r.attempts <= r'.attempts <= r.attempts + 1 && r.posts <= r'.posts
    ensures r'.posts - r.posts <= r'.attempts - r.attempts
    ensures r'.lastAlert != r.lastAlert ==> r'.lastAlert == f.now && r'.posts > r.posts
  {
    if !f.grabbed then r.(stopped := true)
    else
      var count := CounterStep(s, r.count, f.face);
      var drowsy := f.face.Some? && count >= s.drowsyThreshold;
      var alert := if drowsy then AlertStep(s, r.lastAlert, f.now, f.response, f.urlRead) else (r.lastAlert, false);
      CameraRun(count, alert.0, r.attempts + (if drowsy then 1 else 0), r.posts + (if alert.1 then 1 else 0),
                f.quitKey)
  }

  /** The loop over the first `k` frames, starting from `r0`; nothing moves once it ended. */
  function RunFrames(s: Settings, r0: CameraRun, frames: seq<Frame>, k: nat): (r: CameraRun)
    requires k <= |frames|
    ensures r0.attempts <= r.attempts <= r0.attempts + k && r0.posts <= r.posts
    ensures r.posts - r0.posts <= r.attempts - r0.attempts
    ensures r.posts == r0.posts ==> r.lastAlert == r0.lastAlert
    decreases k
  {
    if k == 0 then r0
    else
      var prev := RunFrames(s, r0, frames, k - 1);
      if prev.stopped then prev else FrameStep(s, prev, frames[k - 1])
  }

  /** Frames that are all read, none with 'q', each showing a drowsy face. */
  predicate DrowsyStream(s: Settings, frames: seq<Frame>) {
    forall i :: 0 <= i < |frames| ==>
      frames[i].grabbed && !frames[i].quitKey && frames[i].face.Some? && DrowsyFace(s, frames[i].face.value)
  }

  /** No alert ever clears the counter: over a stream of drowsy frames it climbs by one per
      frame, and once it is within one of the threshold, every frame calls
      `send_github_alert`. */
  lemma {:induction false} DrowsyStreamAlertsEveryFrame(s: Settings, r0: CameraRun, frames: seq<Frame>, k: nat)
    requires k <= |frames|
    requires DrowsyStream(s, frames) && !r0.stopped
    requires r0.count + 1 >= s.drowsyThreshold
    ensures var r := RunFrames(s, r0, frames, k);
            && !r.stopped
            && r.count == r0.count + k
            && r.attempts == r0.attempts + k
    decreases k
  {
    if k > 0 {
      DrowsyStreamAlertsEveryFrame(s, r0, frames, k - 1);
    }
  }

  /** Inside the cooldown window no request is made, whatever the counter says, and the
      last alert time stays put. */
  lemma {:induction false} CooldownBlocksRequests(s: Settings, r0: CameraRun, frames: seq<Frame>, k: nat)
    requires k <= |frames|
    requires forall i :: 0 <= i < |frames| ==> frames[i].now - r0.lastAlert < s.alertCooldown
    ensures var r := RunFrames(s, r0, frames, k);
            r.posts == r0.posts && r.lastAlert == r0.lastAlert
    decreases k
  {
    if k > 0 {
      CooldownBlocksRequests(s, r0, frames, k - 1);
    }
  }

  /** A frame without a face leaves the counter and the alert state alone. */
  lemma NoFaceChangesNothing(s: Settings, r: CameraRun, f: Frame)
    requires f.grabbed && f.face.None? && !r.stopped
    ensures var r' := FrameStep(s, r, f);
            r'.count == r.count && r'.lastAlert == r.lastAlert
            && r'.attempts == r.attempts && r'.posts == r.posts
  {
  }

  /** Once the loop has ended, later frames change nothing. */
  lemma {:induction false} RunFramesStaysStopped(s: Settings, r0: CameraRun, frames: seq<Frame>, j: nat, k: nat)
    requires j <= k <= |frames|
    requires RunFrames(s, r0, frames, j).stopped
    ensures RunFrames(s, r0, frames, k) == RunFrames(s, r0, frames, j)
    decreases k - j
  {
    if j < k {
      RunFramesStaysStopped(s, r0, frames, j, k - 1);
    }
  }

  /** `CCTVMonitor`: the detector it drives. */
  class CctvMonitor {
    const detector: DrowsinessDetector

    constructor (file: Option<Settings>)
      ensures fresh(detector)
      ensures detector.settings == LoadSettings(file)
      ensures detector.drowsyCount == 0 && detector.lastAlertTime == 0
    {
      detector := new DrowsinessDetector(file);
    }

    /** `start`: nothing happens when the camera does not open; otherwise frames are read
        until one cannot be read, 'q' is pressed or the frames run out. Returns the number
        of `send_github_alert` calls and of requests made. */
    method Start(cameraOpened: bool, frames: seq<Frame>) returns (attempts: nat, posts: nat)
      modifies detector
      ensures !cameraOpened ==> attempts == 0 && posts == 0
                                && detector.drowsyCount == old(detector.drowsyCount)
                                && detector.lastAlertTime == old(detector.lastAlertTime)
      ensures cameraOpened ==>
                var r := RunFrames(detector.settings,
                                   CameraRun(old(detector.drowsyCount), old(detector.lastAlertTime), 0, 0, false),
                                   frames, |frames|);
                && detector.drowsyCount == r.count && detector.lastAlertTime == r.lastAlert
                && attempts == r.attempts && posts == r.posts
    {
      attempts, posts := 0, 0;
      if !cameraOpened {
        return;
      }
      ghost var r0 := CameraRun(detector.drowsyCount, detector.lastAlertTime, 0, 0, false);
      var i := 0;
      var stopped := false;
      while i < |frames| && !stopped
        invariant 0 <= i <= |frames|
        invariant var r := RunFrames(detector.settings, r0, frames, i);
                  && detector.drowsyCount == r.count && detector.lastAlertTime == r.lastAlert
                  && attempts == r.attempts && posts == r.posts && stopped == r.stopped
      {
        var f := frames[i];
        if !f.grabbed {
          stopped := true;
        } else {
          var isDrowsy, ear, headTilt := detector.DetectDrowsiness(f.face);
          if isDrowsy {
            var posted := detector.SendGithubAlert(f.now, f.response, f.urlRead);
            attempts := attempts + 1;
            if posted {
              posts := posts + 1;
            }
          }
          stopped := f.quitKey;
        }
        i := i + 1;
      }
      if stopped {
        RunFramesStaysStopped(detector.settings, r0, frames, i, |frames|);
      }
    }
  }
}
