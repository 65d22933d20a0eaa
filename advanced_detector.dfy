/** The decision part of the landmark-based drowsiness detector (src/advanced_detector.py).
    Landmark extraction is external: a detected face is given by the two eye aspect
    ratios and the pixel rows of nose tip, chin and forehead. */
module AdvancedDetector {
  import opened Common

  /** The detail map's `status` entry for a detected face. */
  datatype Status = Drowsy | Alert

  /** The `details` dictionary: `{"status": "no_face_detected"}` or the measured values. */
  datatype Details =
    | NoFaceDetected
    | Measured(ear: real, leftEar: real, rightEar: real, headTilt: real,
               eyesClosed: bool, headDown: bool, status: Status)

  /** `(is_drowsy, confidence, details)` as returned by `detect_drowsiness`. */
  datatype Detection = Detection(isDrowsy: bool, confidence: real, details: Details)

  /** What the face-mesh model yields for one face, reduced to the numbers the decision uses. */
  datatype FaceMeasures = FaceMeasures(leftEar: real, rightEar: real,
                                       noseY: real, chinY: real, foreheadY: real)

  /** `ear_threshold` and `head_tilt_threshold` from the detection configuration. */
  datatype DetectorConfig = DetectorConfig(earThreshold: real, headTiltThreshold: real)

  /** Thresholds used when the configuration does not name them. */
  const DefaultConfig := DetectorConfig(0.2, 0.58)

  /** Where the nose sits between forehead and chin, as a fraction of the face height;
      a face of zero height reads as the upright value 0.5 instead of dividing by zero. */
  function HeadTilt(noseY: real, chinY: real, foreheadY: real): (r: real)
    ensures chinY == foreheadY ==> r == 0.5
    ensures chinY != foreheadY ==> r * (chinY - foreheadY) == noseY - foreheadY
  {
    if chinY - foreheadY == 0.0 then 0.5 else (noseY - foreheadY) / (chinY - foreheadY)
  }

  /** Mouth aspect ratio: vertical over horizontal opening, 0 for a zero-width mouth. */
  function MouthAspectRatio(vertical: real, horizontal: real): (r: real)
    ensures horizontal == 0.0 ==> r == 0.0
    ensures horizontal != 0.0 ==> r * horizontal == vertical
  {
    if horizontal == 0.0 then 0.0 else vertical / horizontal
  }

  /** The decision table: both signs 0.95, head down alone 0.80, eyes closed alone 0.60,
      neither not drowsy with confidence 0. */
  function Judge(eyesClosed: bool, headDown: bool): (r: (bool, real))
    ensures r.0 <==> eyesClosed || headDown
    ensures !r.0 ==> r.1 == 0.0
    ensures r.0 ==> 0.6 <= r.1 < 1.0
    ensures r.1 >= 0.9 <==> eyesClosed && headDown
    ensures r.1 >= 0.75 <==> headDown
    ensures eyesClosed && headDown ==> r.1 == 0.95
    ensures !eyesClosed && headDown ==> r.1 == 0.8
    ensures eyesClosed && !headDown ==> r.1 == 0.6
  {
    if eyesClosed && headDown then (true, 0.95)
    else if headDown then (true, 0.80)
    else if eyesClosed then (true, 0.60)
    else (false, 0.0)
  }

  /** One call of `detect_drowsiness`. No face gives `(False, 0.0, no_face_detected)`;
      otherwise eyes count as closed when the mean EAR is strictly below its threshold and
      the head as down when the tilt is strictly above its threshold. */
  function Detect(cfg: DetectorConfig, face: Option<FaceMeasures>): (d: Detection)
    ensures face.None? <==> d.details.NoFaceDetected?
    ensures face.None? ==> d == Detection(false, 0.0, NoFaceDetected)
    ensures 0.0 <= d.confidence < 1.0
  {
    match face
    case None => Detection(false, 0.0, NoFaceDetected)
    case Some(f) =>
      var ear := (f.leftEar + f.rightEar) / 2.0;
      var tilt := HeadTilt(f.noseY, f.chinY, f.foreheadY);
      var eyesClosed := ear < cfg.earThreshold;
      var headDown := tilt > cfg.headTiltThreshold;
      var (isDrowsy, confidence) := Judge(eyesClosed, headDown);
      Detection(isDrowsy, confidence,
                Measured(ear, f.leftEar, f.rightEar, tilt, eyesClosed, headDown,
                         if isDrowsy then Drowsy else Alert))
  }

  /** For a detected face: the mean EAR and the tilt are reported with both raw EARs;
      the eyes count as closed when the mean EAR is strictly below its threshold, the head
      as down when the tilt is strictly above its threshold; the face is drowsy when
      either holds, and the status says so. */
  lemma DetectMeasured(cfg: DetectorConfig, f: FaceMeasures)
    ensures var d := Detect(cfg, Some(f));
            var ear := (f.leftEar + f.rightEar) / 2.0;
            var tilt := HeadTilt(f.noseY, f.chinY, f.foreheadY);
            && d.details.ear == ear && d.details.headTilt == tilt
            && d.details.leftEar == f.leftEar && d.details.rightEar == f.rightEar
            && (d.details.eyesClosed <==> ear < cfg.earThreshold)
            && (d.details.headDown <==> tilt > cfg.headTiltThreshold)
            && (d.isDrowsy <==> d.details.eyesClosed || d.details.headDown)
            && (d.details.status == Drowsy <==> d.isDrowsy)
  {
  }

  /** With any confidence threshold in (0.6, 0.8], as the default 0.75, a detection passes
      the threshold exactly when the head is down: closed eyes alone never count. */
  lemma HeadDownDecidesAtThreshold(cfg: DetectorConfig, face: Option<FaceMeasures>, threshold: real)
    requires 0.6 < threshold <= 0.8
    ensures var d := Detect(cfg, face);
            d.isDrowsy && d.confidence >= threshold <==> d.details.Measured? && d.details.headDown
  {
    var d := Detect(cfg, face);
    if face.Some? {
      var r := Judge(d.details.eyesClosed, d.details.headDown);
      assert d.isDrowsy == r.0 && d.confidence == r.1;
    }
  }

  /** A face with open eyes (EAR 0.3) and the nose 70% of the way from forehead to chin. */
  const HeadDownFace := FaceMeasures(0.3, 0.3, 0.7, 1.0, 0.0)

  /** Under the default thresholds that face is judged drowsy with confidence 0.80, from
      the head alone. */
  lemma HeadDownFaceVerdict()
    ensures var d := Detect(DefaultConfig, Some(HeadDownFace));
            && d.isDrowsy && d.confidence == 0.8
            && d.details.Measured? && d.details.headDown && !d.details.eyesClosed
  {
    var d := Detect(DefaultConfig, Some(HeadDownFace));
    assert HeadTilt(0.7, 1.0, 0.0) == 0.7;
    var r := Judge(false, true);
    assert d.isDrowsy == r.0 && d.confidence == r.1;
  }
}
