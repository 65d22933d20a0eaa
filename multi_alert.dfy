/** The multi-channel notifier of src/alert_system_multi.py: choosing the Telegram
    recipients, counting successful sends, and collecting the three per-channel results
    of a drowsiness alert. Telegram, Google Sheets and the webhook are external; each
    send's outcome is a parameter. */
module MultiAlert {
  import opened Common

  /** No name occurs twice among the (name, chat id) pairs. */
  predicate DistinctNames(ids: seq<(string, string)>) {
    forall i, j :: 0 <= i < j < |ids| ==> ids[i].0 != ids[j].0
  }

  /** The `chat_ids` object in file order: (name, chat id) pairs. It is a JSON object,
      so no name occurs twice. */
  type ChatIds = ids: seq<(string, string)> | DistinctNames(ids)

  /** `chat_ids.get(name)`. */
  function Lookup(ids: ChatIds, name: string): (r: Option<string>)
    ensures r.None? <==> forall i :: 0 <= i < |ids| ==> ids[i].0 != name
    ensures r.Some? ==> exists i :: 0 <= i < |ids| && ids[i] == (name, r.value)
    ensures forall i :: 0 <= i < |ids| && ids[i].0 == name ==> r == Some(ids[i].1)
  {
    if ids == [] then None
    else if ids[0].0 == name then Some(ids[0].1)
    else
      assert forall i :: 1 <= i < |ids| ==> ids[i] == ids[1..][i - 1];
      var r := Lookup(ids[1..], name);
      r
  }

  /** The chat ids of every entry not named "group", in file order. */
  function AllButGroup(ids: seq<(string, string)>): (r: seq<string>)
    ensures |r| <= |ids|
    ensures forall v :: v in r <==> exists i :: 0 <= i < |ids| && ids[i].0 != "group" && ids[i].1 == v
    ensures (forall i :: 0 <= i < |ids| ==> ids[i].0 != "group") ==> r == Values(ids)
  {
    if ids == [] then []
    else
      var rest := AllButGroup(ids[1..]);
      assert forall i :: 1 <= i < |ids| ==> ids[i] == ids[1..][i - 1];
      if ids[0].0 != "group" then [ids[0].1] + rest else rest
  }

  function Values(ids: seq<(string, string)>): seq<string> {
    if ids == [] then [] else [ids[0].1] + Values(ids[1..])
  }

  /** The filter works entry by entry, in order: on a concatenation it is the
      concatenation of the two results. */
  lemma {:induction false} AllButGroupAppend(a: seq<(string, string)>, b: seq<(string, string)>)
    ensures AllButGroup(a + b) == AllButGroup(a) + AllButGroup(b)
    decreases |a|
  {
    if a == [] {
      assert a + b == b;
    } else {
      assert (a + b)[1..] == a[1..] + b;
      AllButGroupAppend(a[1..], b);
    }
  }

  /** One entry is kept exactly when it is not named "group". */
  lemma AllButGroupSingle(p: (string, string))
    ensures AllButGroup([p]) == if p.0 != "group" then [p.1] else []
  {
  }

  /** Map order is kept and the "group" entry dropped. */
  lemma AllButGroupExample()
    ensures AllButGroup([("a", "1"), ("group", "g"), ("b", "2")]) == ["1", "2"]
  {
    AllButGroupAppend([("a", "1")], [("group", "g"), ("b", "2")]);
    AllButGroupAppend([("group", "g")], [("b", "2")]);
  }

  /** The `telegram` settings that choose recipients: `alert_to` ("group" when missing)
      and `chat_ids`. */
  datatype TelegramConfig = TelegramConfig(alertTo: Option<string>, chatIds: ChatIds)

  /** A chat id that is present and non-empty, as a one-element list; otherwise none. */
  function Single(id: Option<string>): (r: seq<string>)
    ensures |r| <= 1
    ensures r != [] <==> id.Some? && id.value != ""
    ensures r != [] ==> r == [id.value]
  {
    if id.Some? && id.value != "" then [id.value] else []
  }

  /** `get_telegram_targets`. With "all": every chat id not named "group". Otherwise,
      the "group", "admin" and any other name alike: that name's chat id if present and
      non-empty, else no one. */
  function TelegramTargets(c: TelegramConfig): (r: seq<string>)
    ensures var to := if c.alertTo.Some? then c.alertTo.value else "group";
            && (to == "all" ==> r == AllButGroup(c.chatIds))
            && (to != "all" ==> r == Single(Lookup(c.chatIds, to)))
    ensures |r| > 1 ==> c.alertTo == Some("all")
  {
    var to := if c.alertTo.Some? then c.alertTo.value else "group";
    if to == "all" then AllButGroup(c.chatIds)
    else if to == "group" then Single(Lookup(c.chatIds, "group"))
    else if to == "admin" then Single(Lookup(c.chatIds, "admin"))
    else Single(Lookup(c.chatIds, to))
  }

  /** How many of the given send outcomes succeeded. */
  function Successes(outcomes: seq<bool>): (n: nat)
    ensures n <= |outcomes|
    ensures n > 0 <==> true in outcomes
    ensures n == |outcomes| <==> forall i :: 0 <= i < |outcomes| ==> outcomes[i]
  {
    if outcomes == [] then 0
    else
      assert forall i :: 1 <= i < |outcomes| ==> outcomes[i] == outcomes[1..][i - 1];
      (if outcomes[0] then 1 else 0) + Successes(outcomes[1..])
  }

  lemma {:induction false} SuccessesSnoc(outcomes: seq<bool>, b: bool)
    ensures Successes(outcomes + [b]) == Successes(outcomes) + (if b then 1 else 0)
    decreases |outcomes|
  {
    if outcomes == [] {
      assert outcomes + [b] == [b];
    } else {
      assert (outcomes + [b])[1..] == outcomes[1..] + [b];
      SuccessesSnoc(outcomes[1..], b);
    }
  }

  /** `send_telegram_async`: one send per target, `outcomes[i]` telling whether the send
      to `targets[i]` went through; returns how many did. */
  method SendTelegramAsync(targets: seq<string>, outcomes: seq<bool>) returns (successCount: nat)
    requires |outcomes| == |targets|
    ensures successCount == Successes(outcomes)
    ensures successCount <= |targets|
  {
    successCount := 0;
    var i := 0;
    while i < |targets|
      invariant 0 <= i <= |targets|
      invariant successCount == Successes(outcomes[..i])
    {
      SuccessesSnoc(outcomes[..i], outcomes[i]);
      assert outcomes[..i + 1] == outcomes[..i] + [outcomes[i]];
      if outcomes[i] {
        successCount := successCount + 1;
      }
      i := i + 1;
    }
    assert outcomes[..i] == outcomes;
  }

  /** The notifier's settings as `__init__` leaves them. */
  datatype AlertConfig = AlertConfig(telegramEnabled: bool, telegram: TelegramConfig,
                                     sheetsEnabled: bool, webhookEnabled: bool, webhookUrl: Option<string>)

  /** `init_telegram`: enabled when a bot token other than the placeholder is set and the
      bot could be created. */
  function TelegramEnabled(botToken: Option<string>, botCreated: bool): (r: bool)
    ensures r <==> botToken.Some? && botToken.value != "" && botToken.value != "YOUR_BOT_TOKEN_HERE" && botCreated
  {
    if botToken.None? || botToken.value == "" || botToken.value == "YOUR_BOT_TOKEN_HERE" then false
    else botCreated
  }

  /** `send_telegram`: false when disabled or nobody is targeted; otherwise one send per
      target (`outcomes`, or `loopFailed` when the event loop itself raised), true
      exactly when at least one went through. */
  method SendTelegram(c: AlertConfig, outcomes: seq<bool>, loopFailed: bool) returns (ok: bool)
    requires |outcomes| == |TelegramTargets(c.telegram)|
    ensures ok <==> c.telegramEnabled && TelegramTargets(c.telegram) != [] && !loopFailed && true in outcomes
  {
    if !c.telegramEnabled {
      return false;
    }
    var targets := TelegramTargets(c.telegram);
    if targets == [] {
      return false;
    }
    if loopFailed {
      return false;
    }
    var successCount := SendTelegramAsync(targets, outcomes);
    return successCount > 0;
  }

  /** `log_to_google_sheets`: false when disabled, else whether the row was appended. */
  function LogToGoogleSheets(c: AlertConfig, appended: bool): (ok: bool)
    ensures ok <==> c.sheetsEnabled && appended
  {
    if !c.sheetsEnabled then false else appended
  }

  /** `send_webhook`: false when disabled or without a URL; otherwise true exactly on
      status 200. */
  function SendWebhook(c: AlertConfig, response: HttpOutcome): (ok: bool)
    ensures ok <==> c.webhookEnabled && c.webhookUrl.Some? && c.webhookUrl.value != "" && response == Responded(200)
  {
    if !c.webhookEnabled then false
    else if c.webhookUrl.None? || c.webhookUrl.value == "" then false
    else response == Responded(200)
  }

  /** The outcomes of the three transports for one alert. */
  datatype TransportOutcomes = TransportOutcomes(telegramSends: seq<bool>, telegramLoopFailed: bool,
                                                 sheetAppended: bool, webhookResponse: HttpOutcome)

  /** `send_drowsy_alert`: all three transports are tried in turn and the result holds
      exactly the keys "telegram", "google_sheets" and "webhook", each with its
      transport's answer. */
  method SendDrowsyAlert(c: AlertConfig, o: TransportOutcomes) returns (results: map<string, bool>)
    requires |o.telegramSends| == |TelegramTargets(c.telegram)|
    ensures results.Keys == {"telegram", "google_sheets", "webhook"}
    ensures results["telegram"] <==>
              c.telegramEnabled && TelegramTargets(c.telegram) != [] && !o.telegramLoopFailed && true in o.telegramSends
    ensures results["google_sheets"] <==> c.sheetsEnabled && o.sheetAppended
    ensures results["webhook"] <==>
              c.webhookEnabled && c.webhookUrl.Some? && c.webhookUrl.value != "" && o.webhookResponse == Responded(200)
  {
    results := map[];
    var telegram := SendTelegram(c, o.telegramSends, o.telegramLoopFailed);
    results := results["telegram" := telegram];
    results := results["google_sheets" := LogToGoogleSheets(c, o.sheetAppended)];
    results := results["webhook" := SendWebhook(c, o.webhookResponse)];
  }
}
