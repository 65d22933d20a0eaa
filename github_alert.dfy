/** The GitHub Issues notifier of src/alert_system_github.py: whether it is configured,
    which labels an alert carries, and what `create_issue` returns. The HTTP request
    itself is external; its outcome is a parameter. */
module GithubAlert {
  import opened Common
  import AdvancedDetector

  /** `token`, `repo_owner` and `repo_name` from the `github` section, "" when missing. */
  datatype GithubConfig = GithubConfig(token: string, repoOwner: string, repoName: string)

  /** `enabled`: all three settings are non-empty. */
  predicate Enabled(c: GithubConfig) {
    c.token != "" && c.repoOwner != "" && c.repoName != ""
  }

  /** The label list of `send_drowsy_alert`: always "drowsy" first, then "urgent" from
      confidence 0.9, or "high-confidence" from 0.8 below that. */
  function Labels(confidence: real): (r: seq<string>)
    ensures 1 <= |r| <= 2 && r[0] == "drowsy"
    ensures "urgent" in r <==> confidence >= 0.9
    ensures "high-confidence" in r <==> 0.8 <= confidence < 0.9
    ensures !("urgent" in r && "high-confidence" in r)
    ensures |r| == 2 <==> confidence >= 0.8
  {
    if confidence >= 0.9 then ["drowsy", "urgent"]
    else if confidence >= 0.8 then ["drowsy", "high-confidence"]
    else ["drowsy"]
  }

  /** What `create_issue` did: whether it sent the request, and the issue URL it returned. */
  datatype IssueResult = IssueResult(requested: bool, url: Option<string>)

  /** `create_issue`, given the API's outcome and the `html_url` read from the response
      body (`None` when the body is not JSON or has no such key, which raises and is caught):
      when disabled nothing is sent and nothing comes back; when enabled the URL comes back
      exactly on status 201 with a readable `html_url`. */
  function CreateIssue(c: GithubConfig, response: HttpOutcome, issueUrl: Option<string>): (r: IssueResult)
    ensures r.requested <==> Enabled(c)
    ensures r.url.Some? <==> Enabled(c) && response == Responded(201) && issueUrl.Some?
    ensures r.url.Some? ==> r.url == issueUrl
  {
    if !Enabled(c) then IssueResult(false, None)
    else if response == Responded(201) then
      if issueUrl.Some? then IssueResult(true, issueUrl) else IssueResult(true, None)
    else IssueResult(true, None)
  }

  /** `send_drowsy_alert`: the labels chosen from the confidence and the issue result. */
  function SendDrowsyAlert(c: GithubConfig, confidence: real, response: HttpOutcome, issueUrl: Option<string>)
    : (r: (seq<string>, IssueResult))
    ensures r.0 == Labels(confidence) && r.1 == CreateIssue(c, response, issueUrl)
    ensures 1 <= |r.0| <= 2 && r.0[0] == "drowsy" && ("urgent" in r.0 <==> confidence >= 0.9)
    ensures "high-confidence" in r.0 <==> 0.8 <= confidence < 0.9
    ensures |r.0| == 2 <==> confidence >= 0.8
    ensures r.1.requested <==> Enabled(c)
    ensures r.1.url.Some? <==> Enabled(c) && response == Responded(201) && issueUrl.Some?
    ensures r.1.url.Some? ==> r.1.url == issueUrl
  {
    (Labels(confidence), CreateIssue(c, response, issueUrl))
  }

  /** For the detector's own verdicts the label follows the signs: "urgent" exactly when
      eyes are closed and the head is down, "high-confidence" exactly when only the head
      is down, and closed eyes alone get "drowsy" only. */
  lemma LabelsOfDetections(cfg: AdvancedDetector.DetectorConfig, face: Option<AdvancedDetector.FaceMeasures>)
    requires AdvancedDetector.Detect(cfg, face).isDrowsy
    ensures var d := AdvancedDetector.Detect(cfg, face);
            var labels := Labels(d.confidence);
            && d.details.Measured?
            && ("urgent" in labels <==> d.details.eyesClosed && d.details.headDown)
            && ("high-confidence" in labels <==> d.details.headDown && !d.details.eyesClosed)
            && (labels == ["drowsy"] <==> d.details.eyesClosed && !d.details.headDown)
  {
    var d := AdvancedDetector.Detect(cfg, face);
    var r := AdvancedDetector.Judge(d.details.eyesClosed, d.details.headDown);
    assert d.isDrowsy == r.0 && d.confidence == r.1;
  }
}
