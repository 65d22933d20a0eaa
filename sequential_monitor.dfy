/** The channel-switching monitor of src/main_sequential.py
    (`SequentialStudentMonitor`): each cycle brings channels 1..N up one at a time,
    grabs the screen, and feeds the detector's verdict into that channel's drowsiness
    counter and cooldown-gated alert. Unlike the seat monitor, the counter is cleared
    only when the cooldown let the alert be attempted. */
module SequentialMonitor {
  import opened Common
  import opened AdvancedDetector
  import opened Hysteresis
  import ChannelControl

  /** One entry of `channel_states`. */
  datatype ChannelState = ChannelState(drowsyCount: nat, lastAlertTime: Option<int>, hasPerson: bool,
                                       history: seq<Sample>, totalChecks: nat, totalDrowsy: nat,
                                       lastCheckTime: Option<int>)

  /** The detection thresholds and the detector's own thresholds. */
  datatype ChannelConfig = ChannelConfig(thresholds: Thresholds, detector: DetectorConfig)

  const DefaultChannelConfig := ChannelConfig(DefaultThresholds, DefaultConfig)

  /** What holds of every channel state at all times. There is no upper bound on the
      counter: while the cooldown blocks, it keeps climbing. */
  ghost predicate ChannelInvariant(s: ChannelState) {
    && (!s.hasPerson ==> s.drowsyCount == 0)
    && |s.history| <= HistoryCapacity
    && s.totalDrowsy <= s.totalChecks
    && (s.totalChecks == 0 <==> s.lastCheckTime.None?)
  }

  /** `initialize_channel_state`. */
  function InitialChannelState(): ChannelState {
    ChannelState(0, None, false, [], 0, 0, None)
  }

  /** A fresh channel state is empty, unalerted, unchecked and satisfies the invariant. */
  lemma InitialChannelStateValid()
    ensures var s := InitialChannelState();
            && s.drowsyCount == 0 && s.lastAlertTime.None? && !s.hasPerson && s.history == []
            && s.totalChecks == 0 && s.totalDrowsy == 0 && s.lastCheckTime.None?
            && ChannelInvariant(s)
  {
  }

  /** The outcome of one `process_channel` call. */
  datatype ChannelStep = ChannelStep(state: ChannelState, drowsyTick: bool, notified: bool, sent: bool)

  /** One `process_channel` call on a channel in state `s`, given the detector's verdict
      `d`, the clock `now` and the notifier's answer. */
  function ChannelTick(cfg: ChannelConfig, s: ChannelState, d: Detection, now: int, notifierOk: bool): (r: ChannelStep)
    ensures r.state.totalChecks == s.totalChecks + 1 && r.state.lastCheckTime == Some(now)
    ensures r.state.hasPerson <==> d.details.Measured?
    ensures r.sent ==> r.notified
    ensures r.notified ==> r.drowsyTick && d.details.Measured?
  {
    var checked := s.(totalChecks := s.totalChecks + 1, lastCheckTime := Some(now));
    if d.details.NoFaceDetected? then
      ChannelStep(checked.(hasPerson := false, drowsyCount := 0), false, false, false)
    else
      ChannelCountTick(cfg, checked.(hasPerson := true,
                                     history := AppendHistory(s.history, Sample(now, d.isDrowsy, d.confidence, d.details))),
                       d, now, notifierOk)
  }

  /** The counting step of `process_channel`: a confident drowsy verdict raises the counter;
      at the threshold, the alert is attempted only if the cooldown allows it, and only
      then is the counter cleared; any other verdict lets the counter decay by one. */
  function ChannelCountTick(cfg: ChannelConfig, s: ChannelState, d: Detection, now: int, notifierOk: bool): (r: ChannelStep)
    ensures r.state == s.(drowsyCount := r.state.drowsyCount, totalDrowsy := r.state.totalDrowsy,
                          lastAlertTime := r.state.lastAlertTime)
    ensures r.drowsyTick <==> CountsAsDrowsy(d, cfg.thresholds)
    ensures r.drowsyTick ==> r.state.totalDrowsy == s.totalDrowsy + 1
    ensures !r.drowsyTick ==> r.state.totalDrowsy == s.totalDrowsy
    ensures r.notified <==> r.drowsyTick && s.drowsyCount + 1 >= cfg.thresholds.drowsyThreshold
                            && CooldownOver(s.lastAlertTime, now, cfg.thresholds.alertCooldown)
    ensures r.notified ==> r.state.drowsyCount == 0
    ensures r.drowsyTick && !r.notified ==> r.state.drowsyCount == s.drowsyCount + 1
    ensures !r.drowsyTick ==> r.state.drowsyCount == Decay(s.drowsyCount)
    ensures r.sent <==> r.notified && notifierOk
    ensures r.state.lastAlertTime == if r.sent then Some(now) else s.lastAlertTime
  {
    if CountsAsDrowsy(d, cfg.thresholds) then
      var s2 := s.(drowsyCount := s.drowsyCount + 1, totalDrowsy := s.totalDrowsy + 1);
      if s2.drowsyCount >= cfg.thresholds.drowsyThreshold
         && CooldownOver(s2.lastAlertTime, now, cfg.thresholds.alertCooldown) then
        var s3 := if notifierOk then s2.(lastAlertTime := Some(now)) else s2;
        ChannelStep(s3.(drowsyCount := 0), true, true, notifierOk)
      else
        ChannelStep(s2, true, false, false)
    else
      ChannelStep(s.(drowsyCount := Decay(s.drowsyCount)), false, false, false)
  }

  /** What one `process_channel` call does: the check total grows by one and the check
      time is stamped; no face clears the person flag and the counter and records nothing;
      a face records the sample; a confident drowsy verdict raises the counter, and at the
      threshold the notifier is called exactly when the cooldown is over, the counter being
      cleared only then; any other verdict lets the counter decay; the alert time moves
      only on a successful send. */
  lemma ChannelTickBehaviour(cfg: ChannelConfig, s: ChannelState, d: Detection, now: int, notifierOk: bool)
    ensures var r := ChannelTick(cfg, s, d, now, notifierOk);
            && r.state.totalChecks == s.totalChecks + 1 && r.state.lastCheckTime == Some(now)
            && (d.details.NoFaceDetected? ==>
                  r.state == s.(totalChecks := s.totalChecks + 1, lastCheckTime := Some(now),
                                hasPerson := false, drowsyCount := 0)
                  && !r.drowsyTick && !r.notified && !r.sent)
            && (!d.details.NoFaceDetected? ==>
                  r.state.hasPerson
                  && r.state.history == AppendHistory(s.history, Sample(now, d.isDrowsy, d.confidence, d.details)))
            && (r.drowsyTick <==> !d.details.NoFaceDetected? && CountsAsDrowsy(d, cfg.thresholds))
            && r.state.totalDrowsy == s.totalDrowsy + (if r.drowsyTick then 1 else 0)
            && (r.drowsyTick && s.drowsyCount + 1 < cfg.thresholds.drowsyThreshold ==>
                  r.state.drowsyCount == s.drowsyCount + 1 && !r.notified)
            && (r.drowsyTick && s.drowsyCount + 1 >= cfg.thresholds.drowsyThreshold ==>
                  (r.notified <==> CooldownOver(s.lastAlertTime, now, cfg.thresholds.alertCooldown))
                  && r.state.drowsyCount == (if r.notified then 0 else s.drowsyCount + 1))
            && (!d.details.NoFaceDetected? && !r.drowsyTick ==>
                  r.state.drowsyCount == Decay(s.drowsyCount) && !r.notified)
            && (r.sent <==> r.notified && notifierOk)
            && r.state.lastAlertTime == (if r.sent then Some(now) else s.lastAlertTime)
  {
  }

  /** Every tick keeps the channel invariant. */
  lemma ChannelTickKeepsInvariant(cfg: ChannelConfig, s: ChannelState, d: Detection, now: int, notifierOk: bool)
    requires ChannelInvariant(s)
    ensures ChannelInvariant(ChannelTick(cfg, s, d, now, notifierOk).state)
  {
    ChannelTickBehaviour(cfg, s, d, now, notifierOk);
  }

  /** The printed per-channel rate stays within 0..100 %. */
  lemma ChannelRateBounded(s: ChannelState)
    requires ChannelInvariant(s)
    ensures 0.0 <= DrowsyRate(s.totalDrowsy, s.totalChecks) <= 100.0
  {
  }

  /** The inputs of one tick of one channel. */
  datatype ChannelInput = ChannelInput(d: Detection, now: int, notifierOk: bool)

  /** A channel after a series of ticks, with the number of notifier calls and successes. */
  datatype ChannelRun = ChannelRun(state: ChannelState, notified: nat, sent: nat)

  function RunChannel(cfg: ChannelConfig, s: ChannelState, inputs: seq<ChannelInput>): ChannelRun
    decreases |inputs|
  {
    if inputs == [] then ChannelRun(s, 0, 0)
    else
      var step := ChannelTick(cfg, s, inputs[0].d, inputs[0].now, inputs[0].notifierOk);
      var rest := RunChannel(cfg, step.state, inputs[1..]);
      ChannelRun(rest.state, rest.notified + (if step.notified then 1 else 0),
                 rest.sent + (if step.sent then 1 else 0))
  }

  predicate ConfidentDrowsy(cfg: ChannelConfig, i: ChannelInput) {
    !i.d.details.NoFaceDetected? && CountsAsDrowsy(i.d, cfg.thresholds)
  }

  /** Running two series of ticks one after the other is running their concatenation. */
  lemma {:induction false} RunChannelSplit(cfg: ChannelConfig, s: ChannelState, a: seq<ChannelInput>, b: seq<ChannelInput>)
    ensures var ra := RunChannel(cfg, s, a);
            var rb := RunChannel(cfg, ra.state, b);
            RunChannel(cfg, s, a + b) == ChannelRun(rb.state, ra.notified + rb.notified, ra.sent + rb.sent)
    decreases |a|
  {
    if a == [] {
      assert a + b == b;
    } else {
      var step := ChannelTick(cfg, s, a[0].d, a[0].now, a[0].notifierOk);
      RunChannelSplit(cfg, step.state, a[1..], b);
      assert (a + b)[1..] == a[1..] + b;
    }
  }

  /** Confident drowsy ticks that stay short of the threshold raise the counter by their
      number and call no notifier. */
  lemma {:induction false} ChannelStreakBelowThreshold(cfg: ChannelConfig, s: ChannelState, inputs: seq<ChannelInput>)
    requires forall k :: 0 <= k < |inputs| ==> ConfidentDrowsy(cfg, inputs[k])
    requires s.drowsyCount + |inputs| < cfg.thresholds.drowsyThreshold
    ensures RunChannel(cfg, s, inputs).state.drowsyCount == s.drowsyCount + |inputs|
    ensures RunChannel(cfg, s, inputs).notified == 0 && RunChannel(cfg, s, inputs).sent == 0
    ensures RunChannel(cfg, s, inputs).state.lastAlertTime == s.lastAlertTime
    decreases |inputs|
  {
    if inputs != [] {
      var step := ChannelTick(cfg, s, inputs[0].d, inputs[0].now, inputs[0].notifierOk);
      ChannelStreakBelowThreshold(cfg, step.state, inputs[1..]);
    }
  }

  /** While the cooldown blocks (every tick less than `alertCooldown` seconds after the
      last alert), confident drowsy ticks raise the counter by their number, past the
      threshold, and call no notifier. */
  lemma {:induction false} CounterClimbsWhileBlocked(cfg: ChannelConfig, s: ChannelState, inputs: seq<ChannelInput>)
    requires s.lastAlertTime.Some?
    requires cfg.thresholds.alertCooldown <= SecondsPerDay
    requires forall k :: 0 <= k < |inputs| ==>
               && ConfidentDrowsy(cfg, inputs[k])
               && s.lastAlertTime.value <= inputs[k].now < s.lastAlertTime.value + cfg.thresholds.alertCooldown
    ensures RunChannel(cfg, s, inputs).state.drowsyCount == s.drowsyCount + |inputs|
    ensures RunChannel(cfg, s, inputs).state.lastAlertTime == s.lastAlertTime
    ensures RunChannel(cfg, s, inputs).notified == 0
    decreases |inputs|
  {
    if inputs != [] {
      var i := inputs[0];
      assert !CooldownOver(s.lastAlertTime, i.now, cfg.thresholds.alertCooldown);
      var step := ChannelTick(cfg, s, i.d, i.now, i.notifierOk);
      CounterClimbsWhileBlocked(cfg, step.state, inputs[1..]);
    }
  }

  /** `n` ticks with the same detection `d` every 2 s from `start`, all alerts answered
      with success. */
  function RepeatedInputs(d: Detection, start: int, n: nat): (r: seq<ChannelInput>)
    ensures |r| == n
    ensures forall k :: 0 <= k < n ==> r[k] == ChannelInput(d, start + 2 * k, true)
  {
    seq(n, k => ChannelInput(d, start + 2 * k, true))
  }

  /** A detection that the default thresholds count as drowsy. */
  predicate DefaultDrowsy(d: Detection) {
    !d.details.NoFaceDetected? && CountsAsDrowsy(d, DefaultThresholds)
  }

  /** With four drowsy ticks counted and no alert yet, the fifth sends the alert and clears
      the counter. */
  lemma FifthDrowsyTickAlerts(s: ChannelState, d: Detection, now: int)
    requires DefaultDrowsy(d)
    requires s.drowsyCount == 4 && s.lastAlertTime.None?
    ensures var r := RunChannel(DefaultChannelConfig, s, [ChannelInput(d, now, true)]);
            r.notified == 1 && r.sent == 1 && r.state.drowsyCount == 0 && r.state.lastAlertTime == Some(now)
  {
    assert [ChannelInput(d, now, true)][1..] == [];
  }

  /** Five drowsy ticks at t = 0..8 from a fresh channel send one alert at t = 8 and
      clear the counter. */
  lemma FirstAlertClearsCounter(d: Detection)
    requires DefaultDrowsy(d)
    ensures var first := RunChannel(DefaultChannelConfig, InitialChannelState(), RepeatedInputs(d, 0, 5));
            && first.notified == 1 && first.sent == 1
            && first.state.drowsyCount == 0 && first.state.lastAlertTime == Some(8)
  {
    var cfg := DefaultChannelConfig;
    var ins := RepeatedInputs(d, 0, 5);
    ChannelStreakBelowThreshold(cfg, InitialChannelState(), ins[..4]);
    RunChannelSplit(cfg, InitialChannelState(), ins[..4], ins[4..]);
    assert ins[..4] + ins[4..] == ins;
    var mid := RunChannel(cfg, InitialChannelState(), ins[..4]);
    assert ins[4..] == [ChannelInput(d, 8, true)];
    FifthDrowsyTickAlerts(mid.state, d, 8);
  }

  /** The seat monitor's scenario on a channel, for any detection counted as drowsy: after
      the alert at t = 8, six more drowsy ticks at t = 10..20 fall inside the cooldown, so
      no alert is attempted and the counter climbs to 6, past the threshold of 5, where
      the seat monitor clears it at t = 18. */
  lemma CooldownLetsCounterClimb(d: Detection)
    requires DefaultDrowsy(d)
    ensures var first := RunChannel(DefaultChannelConfig, InitialChannelState(), RepeatedInputs(d, 0, 5));
            var second := RunChannel(DefaultChannelConfig, first.state, RepeatedInputs(d, 10, 6));
            && second.notified == 0
            && second.state.drowsyCount == 6
            && second.state.drowsyCount > DefaultChannelConfig.thresholds.drowsyThreshold
  {
    FirstAlertClearsCounter(d);
    var first := RunChannel(DefaultChannelConfig, InitialChannelState(), RepeatedInputs(d, 0, 5));
    CounterClimbsWhileBlocked(DefaultChannelConfig, first.state, RepeatedInputs(d, 10, 6));
  }

  /** The head-down face is such a detection. */
  lemma HeadDownFaceCountsAsDrowsy()
    ensures DefaultDrowsy(Detect(DefaultChannelConfig.detector, Some(HeadDownFace)))
  {
    HeadDownFaceVerdict();
  }

  /** A channel's state, or a fresh one when it has none yet. */
  function StateOrInitial(m: map<int, ChannelState>, ch: int): ChannelState {
    if ch in m then m[ch] else InitialChannelState()
  }

  /** What one cycle's visit to one channel provides: the click outcome, the grab (None
      when the capture failed; otherwise what the face model sees in it), the clock, the
      notifier's answer, and whether ESC was pressed in the debug window. */
  datatype ChannelVisit = ChannelVisit(clickOk: bool, capture: Option<Option<FaceMeasures>>, now: int,
                                       notifierOk: bool, escPressed: bool)

  /** Where a cycle stands: the channel states, the channel on screen, the channels
      processed so far, the drowsy ticks and successful alerts among them, and whether
      the user stopped it. */
  datatype CycleRun = CycleRun(states: map<int, ChannelState>, current: int, processed: nat,
                               drowsy: nat, sent: nat, stopped: bool)

  /** A cycle so far, with channel `ch` given the outcome `step`. */
  function TickCycle(prev: CycleRun, ch: int, step: ChannelStep): CycleRun {
    prev.(states := prev.states[ch := step.state],
          drowsy := prev.drowsy + (if step.drowsyTick then 1 else 0),
          sent := prev.sent + (if step.sent then 1 else 0))
  }

  /** A tick on channel `ch` overwrites whatever state the channel was given before it. */
  lemma TickCycleOverwrites(prev: CycleRun, ch: int, s: ChannelState, step: ChannelStep)
    ensures TickCycle(prev.(states := prev.states[ch := s]), ch, step) == TickCycle(prev, ch, step)
  {
    MapOverwrite(prev.states, ch, s, step.state);
  }

  /** The body of the `run_single_cycle` loop for channel `ch`: a failed switch or a
      failed capture skips the channel; otherwise it is processed and counted. */
  function VisitChannel(cfg: ChannelConfig, ctrl: ChannelControl.ChannelController, prev: CycleRun,
                        ch: int, v: ChannelVisit, debug: bool): CycleRun
  {
    if !(ctrl.HasButton(ch) && v.clickOk) then prev
    else if v.capture.None? then prev.(current := ch)
    else
      var step := ChannelTick(cfg, StateOrInitial(prev.states, ch), Detect(cfg.detector, v.capture.value),
                              v.now, v.notifierOk);
      TickCycle(prev, ch, step).(current := ch, processed := prev.processed + 1, stopped := debug && v.escPressed)
  }

  /** A cycle whose counters start from `checks`, `drowsy` and `sent` instead of zero. */
  function Shifted(r: CycleRun, checks: nat, drowsy: nat, sent: nat): CycleRun {
    r.(processed := r.processed + checks, drowsy := r.drowsy + drowsy, sent := r.sent + sent)
  }

  /** A visit adds to the counters whatever they started from. */
  lemma VisitChannelShifted(cfg: ChannelConfig, ctrl: ChannelControl.ChannelController, prev: CycleRun,
                            ch: int, v: ChannelVisit, debug: bool, checks: nat, drowsy: nat, sent: nat)
    ensures VisitChannel(cfg, ctrl, Shifted(prev, checks, drowsy, sent), ch, v, debug)
            == Shifted(VisitChannel(cfg, ctrl, prev, ch, v, debug), checks, drowsy, sent)
  {
  }

  /** Channels 1..k visited in ascending order, stopping for good once ESC is pressed. */
  function CycleFold(cfg: ChannelConfig, ctrl: ChannelControl.ChannelController, m: map<int, ChannelState>,
                     current: int, visits: seq<ChannelVisit>, debug: bool, k: nat): CycleRun
    requires k <= |visits|
    decreases k
  {
    if k == 0 then CycleRun(m, current, 0, 0, 0, false)
    else
      var prev := CycleFold(cfg, ctrl, m, current, visits, debug, k - 1);
      if prev.stopped then prev else VisitChannel(cfg, ctrl, prev, k, visits[k - 1], debug)
  }

  /** Channel `ch` is processed in the cycle: reached before any ESC, switched to and
      captured. */
  predicate Processed(cfg: ChannelConfig, ctrl: ChannelControl.ChannelController, m: map<int, ChannelState>,
                      current: int, visits: seq<ChannelVisit>, debug: bool, ch: int)
  {
    && 1 <= ch <= |visits|
    && !CycleFold(cfg, ctrl, m, current, visits, debug, ch - 1).stopped
    && ctrl.HasButton(ch) && visits[ch - 1].clickOk && visits[ch - 1].capture.Some?
  }

  /** A visit processes at most one channel, counts a drowsy tick only for a processed
      channel and a successful alert only for a drowsy tick. */
  lemma VisitChannelCounts(cfg: ChannelConfig, ctrl: ChannelControl.ChannelController, prev: CycleRun,
                           ch: int, v: ChannelVisit, debug: bool)
    ensures var r := VisitChannel(cfg, ctrl, prev, ch, v, debug);
            prev.sent <= r.sent && r.sent - prev.sent <= r.drowsy - prev.drowsy
            && r.drowsy - prev.drowsy <= r.processed - prev.processed <= 1
  {
    if ctrl.HasButton(ch) && v.clickOk && v.capture.Some? {
      ChannelTickBehaviour(cfg, StateOrInitial(prev.states, ch), Detect(cfg.detector, v.capture.value),
                           v.now, v.notifierOk);
    }
  }

  /** The cycle's counters stay ordered: successful alerts, drowsy ticks and processed
      channels, at most one per channel visited. */
  lemma {:induction false} CycleFoldCounts(cfg: ChannelConfig, ctrl: ChannelControl.ChannelController,
                                           m: map<int, ChannelState>, current: int,
                                           visits: seq<ChannelVisit>, debug: bool, k: nat)
    requires k <= |visits|
    ensures var r := CycleFold(cfg, ctrl, m, current, visits, debug, k);
            r.sent <= r.drowsy <= r.processed <= k
    decreases k
  {
    if k > 0 {
      CycleFoldCounts(cfg, ctrl, m, current, visits, debug, k - 1);
      var prev := CycleFold(cfg, ctrl, m, current, visits, debug, k - 1);
      if !prev.stopped {
        VisitChannelCounts(cfg, ctrl, prev, k, visits[k - 1], debug);
      }
    }
  }

  /** One visit changes at most the visited channel: when it is switched to and
      captured it takes one tick, and otherwise nothing changes for it. */
  lemma VisitChannelAt(cfg: ChannelConfig, ctrl: ChannelControl.ChannelController, prev: CycleRun,
                       k: int, v: ChannelVisit, debug: bool, ch: int)
    ensures var r := VisitChannel(cfg, ctrl, prev, k, v, debug);
            if ch == k && ctrl.HasButton(k) && v.clickOk && v.capture.Some? then
              ch in r.states
              && r.states[ch] == ChannelTick(cfg, StateOrInitial(prev.states, ch), Detect(cfg.detector, v.capture.value),
                                             v.now, v.notifierOk).state
            else
              (ch in r.states <==> ch in prev.states) && StateOrInitial(r.states, ch) == StateOrInitial(prev.states, ch)
  {
  }

  /** Within a cycle, a processed channel ends with one tick applied to the state it had
      before the cycle (or a fresh one), and every other channel keeps its state. */
  lemma {:induction false} CycleFoldPointwise(cfg: ChannelConfig, ctrl: ChannelControl.ChannelController,
                                              m: map<int, ChannelState>, current: int,
                                              visits: seq<ChannelVisit>, debug: bool, k: nat, ch: int)
    requires k <= |visits|
    ensures var r := CycleFold(cfg, ctrl, m, current, visits, debug, k);
            if 1 <= ch <= k && Processed(cfg, ctrl, m, current, visits, debug, ch) then
              var v := visits[ch - 1];
              ch in r.states
              && r.states[ch] == ChannelTick(cfg, StateOrInitial(m, ch), Detect(cfg.detector, v.capture.value),
                                             v.now, v.notifierOk).state
            else
              (ch in r.states <==> ch in m) && StateOrInitial(r.states, ch) == StateOrInitial(m, ch)
    decreases k
  {
    if k > 0 {
      CycleFoldPointwise(cfg, ctrl, m, current, visits, debug, k - 1, ch);
      var prev := CycleFold(cfg, ctrl, m, current, visits, debug, k - 1);
      if !prev.stopped {
        VisitChannelAt(cfg, ctrl, prev, k, visits[k - 1], debug, ch);
        if ch == k {
          assert StateOrInitial(prev.states, ch) == StateOrInitial(m, ch);
        }
      }
    }
  }

  /** Once stopped, a cycle visits no further channel. */
  lemma {:induction false} CycleFoldStaysStopped(cfg: ChannelConfig, ctrl: ChannelControl.ChannelController,
                                                 m: map<int, ChannelState>, current: int,
                                                 visits: seq<ChannelVisit>, debug: bool, j: nat, k: nat)
    requires j <= k <= |visits|
    requires CycleFold(cfg, ctrl, m, current, visits, debug, j).stopped
    ensures CycleFold(cfg, ctrl, m, current, visits, debug, k) == CycleFold(cfg, ctrl, m, current, visits, debug, j)
    decreases k - j
  {
    if j < k {
      CycleFoldStaysStopped(cfg, ctrl, m, current, visits, debug, j, k - 1);
    }
  }

  /** `SequentialStudentMonitor`: the channel states and the global counters, next to the
      channel controller it drives. */
  class SequentialStudentMonitor {
    const cfg: ChannelConfig
    const controller: ChannelControl.ChannelController
    var channelStates: map<int, ChannelState>
    var totalCycles: nat
    var totalChecks: nat
    var drowsyDetections: nat
    var alertsSent: nat

    /** Every channel state keeps the channel invariant, and the controller its own. */
    ghost predicate Valid()
      reads this, controller
    {
      && controller.Valid()
      && forall ch :: ch in channelStates ==> ChannelInvariant(channelStates[ch])
    }

    /** The monitor as a cycle sees it, with `stopped` as the ESC flag. */
    ghost function Progress(stopped: bool): CycleRun
      reads this, controller
    {
      CycleRun(channelStates, controller.currentChannel, totalChecks, drowsyDetections, alertsSent, stopped)
    }

    constructor (cfg: ChannelConfig, controller: ChannelControl.ChannelController)
      requires controller.Valid()
      ensures this.cfg == cfg && this.controller == controller && channelStates == map[]
      ensures totalCycles == 0 && totalChecks == 0 && drowsyDetections == 0 && alertsSent == 0
      ensures Valid()
    {
      this.cfg := cfg;
      this.controller := controller;
      channelStates := map[];
      totalCycles := 0;
      totalChecks := 0;
      drowsyDetections := 0;
      alertsSent := 0;
    }

    /** `send_alert`: the alert time and the alert total move only on success; the
        cooldown is the caller's business. */
    method SendAlert(ch: int, now: int, notifierOk: bool)
      requires ch in channelStates
      modifies this
      ensures channelStates == if notifierOk
                               then old(channelStates)[ch := old(channelStates[ch]).(lastAlertTime := Some(now))]
                               else old(channelStates)
      ensures alertsSent == old(alertsSent) + (if notifierOk then 1 else 0)
      ensures totalCycles == old(totalCycles) && totalChecks == old(totalChecks)
      ensures drowsyDetections == old(drowsyDetections)
    {
      if notifierOk {
        channelStates := channelStates[ch := channelStates[ch].(lastAlertTime := Some(now))];
        alertsSent := alertsSent + 1;
      }
    }

    /** The counting step of `process_channel`, as `ChannelCountTick` describes it. */
    method CountDrowsiness(ch: int, d: Detection, now: int, notifierOk: bool) returns (notified: bool)
      requires ch in channelStates
      modifies this
      ensures var step := ChannelCountTick(cfg, old(channelStates[ch]), d, now, notifierOk);
              && channelStates == old(channelStates)[ch := step.state]
              && notified == step.notified
              && drowsyDetections == old(drowsyDetections) + (if step.drowsyTick then 1 else 0)
              && alertsSent == old(alertsSent) + (if step.sent then 1 else 0)
      ensures totalCycles == old(totalCycles) && totalChecks == old(totalChecks)
    {
      notified := false;
      var state := channelStates[ch];
      if d.isDrowsy && d.confidence >= cfg.thresholds.confidenceThreshold {
        state := state.(drowsyCount := state.drowsyCount + 1, totalDrowsy := state.totalDrowsy + 1);
        channelStates := channelStates[ch := state];
        drowsyDetections := drowsyDetections + 1;
        if state.drowsyCount >= cfg.thresholds.drowsyThreshold {
          if CooldownOver(state.lastAlertTime, now, cfg.thresholds.alertCooldown) {
            notified := true;
            SendAlert(ch, now, notifierOk);
            channelStates := channelStates[ch := channelStates[ch].(drowsyCount := 0)];
          }
        }
      } else if state.drowsyCount > 0 {
        channelStates := channelStates[ch := state.(drowsyCount := state.drowsyCount - 1)];
      }
    }

    /** The recording step of `process_channel` for a detected face: the check is counted and
        stamped, the channel is marked as having a person, and the sample joins the
        history. */
    method RecordFace(ch: int, d: Detection, now: int)
      requires ch in channelStates
      modifies this
      ensures var s := old(channelStates[ch]);
              channelStates == old(channelStates)[ch := s.(totalChecks := s.totalChecks + 1, lastCheckTime := Some(now),
                hasPerson := true, history := AppendHistory(s.history, Sample(now, d.isDrowsy, d.confidence, d.details)))]
      ensures totalCycles == old(totalCycles) && totalChecks == old(totalChecks)
      ensures drowsyDetections == old(drowsyDetections) && alertsSent == old(alertsSent)
    {
      var state := channelStates[ch];
      var sample := Sample(now, d.isDrowsy, d.confidence, d.details);
      var history := state.history + [sample];
      if |history| > HistoryCapacity {
        history := history[1..];
      }
      assert history == AppendHistory(state.history, sample);
      channelStates := channelStates[ch := state.(totalChecks := state.totalChecks + 1, lastCheckTime := Some(now),
                                                  hasPerson := true, history := history)];
    }

    /** `process_channel` once the channel has a state and the detector has returned
        `d`: one tick, exactly as `ChannelTick` describes it. */
    method TickChannel(ch: int, d: Detection, now: int, notifierOk: bool) returns (notified: bool)
      requires ch in channelStates
      requires Valid()
      modifies this
      ensures Valid()
      ensures var step := ChannelTick(cfg, old(channelStates[ch]), d, now, notifierOk);
              Progress(false) == TickCycle(old(Progress(false)), ch, step) && notified == step.notified
      ensures totalCycles == old(totalCycles)
    {
      ghost var step := ChannelTick(cfg, channelStates[ch], d, now, notifierOk);
      var state := channelStates[ch];
      state := state.(totalChecks := state.totalChecks + 1, lastCheckTime := Some(now));
      if d.details.NoFaceDetected? {
        channelStates := channelStates[ch := state.(hasPerson := false, drowsyCount := 0)];
        notified := false;
        assert step.state == state.(hasPerson := false, drowsyCount := 0);
      } else {
        RecordFace(ch, d, now);
        ghost var observed := state.(hasPerson := true,
                                     history := AppendHistory(state.history, Sample(now, d.isDrowsy, d.confidence, d.details)));
        assert channelStates == old(channelStates)[ch := observed];
        assert step == ChannelCountTick(cfg, observed, d, now, notifierOk);
        notified := CountDrowsiness(ch, d, now, notifierOk);
      }
      assert channelStates == old(channelStates)[ch := step.state];
      ChannelTickKeepsInvariant(cfg, old(channelStates[ch]), d, now, notifierOk);
    }

    /** The first lines of `process_channel`: a channel seen for the first time gets a
        fresh state; every other channel and counter stays as it was. */
    method EnsureChannel(ch: int)
      requires Valid()
      modifies this
      ensures Valid() && ch in channelStates
      ensures Progress(false) == old(Progress(false)).(states := old(channelStates)[ch := StateOrInitial(old(channelStates), ch)])
      ensures totalCycles == old(totalCycles)
    {
      if ch !in channelStates {
        channelStates := channelStates[ch := InitialChannelState()];
        InitialChannelStateValid();
      } else {
        assert channelStates == channelStates[ch := channelStates[ch]];
      }
    }

    /** `process_channel`: the channel's state is created on first use, then it takes
        one tick. */
    method ProcessChannel(ch: int, face: Option<FaceMeasures>, now: int, notifierOk: bool) returns (notified: bool)
      requires Valid()
      modifies this
      ensures Valid()
      ensures var step := ChannelTick(cfg, StateOrInitial(old(channelStates), ch), Detect(cfg.detector, face),
                                      now, notifierOk);
              Progress(false) == TickCycle(old(Progress(false)), ch, step) && notified == step.notified
      ensures totalCycles == old(totalCycles)
    {
      ghost var prev := Progress(false);
      ghost var s := StateOrInitial(channelStates, ch);
      EnsureChannel(ch);
      var d := Detect(cfg.detector, face);
      ghost var step := ChannelTick(cfg, s, d, now, notifierOk);
      notified := TickChannel(ch, d, now, notifierOk);
      TickCycleOverwrites(prev, ch, s, step);
    }

    /** The body of the `run_single_cycle` loop for channel `ch`: switch to it and, when
        that and the capture succeed, process and count it; ESC in debug mode stops. */
    method VisitChannelOnce(ch: int, v: ChannelVisit, debug: bool) returns (stopped: bool)
      requires Valid()
      modifies this, controller
      ensures Valid()
      ensures Progress(stopped) == VisitChannel(cfg, controller, old(Progress(false)), ch, v, debug)
      ensures totalCycles == old(totalCycles)
    {
      ghost var prev := Progress(false);
      stopped := false;
      var switched := controller.SwitchToChannel(ch, v.clickOk);
      if switched && v.capture.Some? {
        var _ := ProcessChannel(ch, v.capture.value, v.now, v.notifierOk);
        totalChecks := totalChecks + 1;
        stopped := debug && v.escPressed;
        ghost var step := ChannelTick(cfg, StateOrInitial(prev.states, ch), Detect(cfg.detector, v.capture.value),
                                      v.now, v.notifierOk);
        assert Progress(stopped) == TickCycle(prev, ch, step).(current := ch, processed := prev.processed + 1,
                                                               stopped := stopped);
      } else if switched {
        assert Progress(stopped) == prev.(current := ch);
      } else {
        assert Progress(stopped) == prev;
      }
    }

    /** `run_single_cycle`: channels 1..total in ascending order, `visits[ch - 1]` the
        outcomes for channel `ch`. A channel whose switch or capture fails is skipped;
        every processed channel adds one check. In debug mode, ESC after a channel ends
        the cycle with False before it is counted; otherwise the cycle is counted once
        and True is returned. */
    method RunSingleCycle(visits: seq<ChannelVisit>, debug: bool) returns (completed: bool)
      requires Valid()
      requires |visits| == ChannelControl.ChannelCount(controller.totalChannels)
      modifies this, controller
      ensures Valid()
      ensures var r := CycleFold(cfg, controller, old(channelStates), old(controller.currentChannel),
                                 visits, debug, |visits|);
              && channelStates == r.states
              && controller.currentChannel == r.current
              && totalChecks == old(totalChecks) + r.processed
              && drowsyDetections == old(drowsyDetections) + r.drowsy
              && alertsSent == old(alertsSent) + r.sent
              && completed == !r.stopped
      ensures totalCycles == old(totalCycles) + (if completed then 1 else 0)
    {
      ghost var m0, c0 := channelStates, controller.currentChannel;
      var ch := 1;
      var stopped := false;
      while ch <= controller.totalChannels && !stopped
        invariant 1 <= ch <= |visits| + 1
        invariant Valid()
        invariant totalCycles == old(totalCycles)
        invariant Progress(stopped) == Shifted(CycleFold(cfg, controller, m0, c0, visits, debug, ch - 1),
                                               old(totalChecks), old(drowsyDetections), old(alertsSent))
      {
        VisitChannelShifted(cfg, controller, CycleFold(cfg, controller, m0, c0, visits, debug, ch - 1),
                            ch, visits[ch - 1], debug, old(totalChecks), old(drowsyDetections), old(alertsSent));
        stopped := VisitChannelOnce(ch, visits[ch - 1], debug);
        ch := ch + 1;
      }
      if stopped {
        CycleFoldStaysStopped(cfg, controller, m0, c0, visits, debug, ch - 1, |visits|);
      } else {
        totalCycles := totalCycles + 1;
      }
      completed := !stopped;
    }
  }
}
