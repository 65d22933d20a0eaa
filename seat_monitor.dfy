/** The seat-by-seat monitor of src/main.py (`AccurateStudentMonitor`): every frame is
    cut into seat regions, each region is judged occupied or empty from its brightness
    and edge density, and an occupied seat's detector result drives its drowsiness
    counter and the cooldown-gated alert. */
module SeatMonitor {
  import opened Common
  import opened AdvancedDetector
  import opened Hysteresis
  import Capture

  /** One entry of `seat_states`. */
  datatype SeatState = SeatState(drowsyCount: nat, lastAlertTime: Option<int>, isOccupied: bool,
                                 history: seq<Sample>, totalChecks: nat, totalDrowsy: nat)

  /** The configuration this monitor reads: the detection thresholds, the empty-seat
      thresholds and the detector's own thresholds. */
  datatype SeatConfig = SeatConfig(thresholds: Thresholds, brightnessThreshold: real,
                                   edgeDensityThreshold: real, detector: DetectorConfig)

  /** `brightness_threshold` 180 and `edge_density_threshold` 0.05 by default. */
  const DefaultSeatConfig := SeatConfig(DefaultThresholds, 180.0, 0.05, DefaultConfig)

  /** What holds of every seat state at all times. */
  ghost predicate SeatInvariant(s: SeatState, t: Thresholds) {
    && (!s.isOccupied ==> s.drowsyCount == 0)
    && |s.history| <= HistoryCapacity
    && s.totalDrowsy <= s.totalChecks
    && (t.drowsyThreshold >= 1 ==> s.drowsyCount < t.drowsyThreshold)
  }

  /** `initialize_seat_state`. */
  function InitialSeatState(): SeatState {
    SeatState(0, None, false, [], 0, 0)
  }

  /** A fresh seat state is empty, unalerted, unoccupied, and satisfies the invariant
      for every threshold setting. */
  lemma InitialSeatStateValid(t: Thresholds)
    ensures var s := InitialSeatState();
            && s.drowsyCount == 0 && s.lastAlertTime.None? && !s.isOccupied
            && s.history == [] && s.totalChecks == 0 && s.totalDrowsy == 0
            && SeatInvariant(s, t)
  {
  }

  /** `is_seat_occupied`, given the region's mean brightness and edge density: darker than
      the brightness threshold and more textured than the edge threshold, both strictly. */
  predicate IsSeatOccupied(cfg: SeatConfig, brightness: real, edgeDensity: real) {
    brightness < cfg.brightnessThreshold && edgeDensity > cfg.edgeDensityThreshold
  }

  /** The rule needs both signs, and a value equal to a threshold does not count. */
  lemma OccupancyNeedsBothStrictly(cfg: SeatConfig, brightness: real, edgeDensity: real)
    ensures brightness >= cfg.brightnessThreshold ==> !IsSeatOccupied(cfg, brightness, edgeDensity)
    ensures edgeDensity <= cfg.edgeDensityThreshold ==> !IsSeatOccupied(cfg, brightness, edgeDensity)
    ensures !IsSeatOccupied(DefaultSeatConfig, 200.0, 0.0)
    ensures IsSeatOccupied(DefaultSeatConfig, 90.0, 0.2)
  {
  }

  /** The outcome of one `process_seat` call on one seat. */
  datatype SeatStep = SeatStep(state: SeatState, drowsyTick: bool, notified: bool, sent: bool)

  /** One `process_seat` call: `occupied` is the occupancy decision, `face` what the face
      model saw, `now` the clock, `notifierOk` what the notifier would answer.
      `notified` records that the notifier was called, `sent` that it reported success. */
  function SeatTick(cfg: SeatConfig, s: SeatState, occupied: bool, face: Option<FaceMeasures>,
                    now: int, notifierOk: bool): (r: SeatStep)
    ensures r.state.totalChecks == s.totalChecks + 1 && r.state.isOccupied == occupied
    ensures r.sent ==> r.notified
    ensures r.notified ==> r.drowsyTick && occupied
  {
    var checked := s.(totalChecks := s.totalChecks + 1);
    if !occupied then
      SeatStep(checked.(isOccupied := false, drowsyCount := 0), false, false, false)
    else
      var d := Detect(cfg.detector, face);
      CountTick(cfg, checked.(isOccupied := true,
                              history := AppendHistory(s.history, Sample(now, d.isDrowsy, d.confidence, d.details))),
                d, now, notifierOk)
  }

  /** The second half of `process_seat`, once an occupied seat's sample is recorded: a
      confident drowsy verdict raises the counter, and reaching the threshold attempts an
      alert (if the cooldown allows) and clears the counter; any other verdict lets the
      counter decay by one. */
  function CountTick(cfg: SeatConfig, s: SeatState, d: Detection, now: int, notifierOk: bool): (r: SeatStep)
    ensures r.state == s.(drowsyCount := r.state.drowsyCount, totalDrowsy := r.state.totalDrowsy,
                          lastAlertTime := r.state.lastAlertTime)
    ensures r.drowsyTick <==> CountsAsDrowsy(d, cfg.thresholds)
    ensures r.state.totalDrowsy == s.totalDrowsy + (if r.drowsyTick then 1 else 0)
    ensures r.drowsyTick && s.drowsyCount + 1 < cfg.thresholds.drowsyThreshold ==>
              r.state.drowsyCount == s.drowsyCount + 1 && !r.notified
    ensures r.drowsyTick && s.drowsyCount + 1 >= cfg.thresholds.drowsyThreshold ==>
              r.state.drowsyCount == 0
              && (r.notified <==> CooldownOver(s.lastAlertTime, now, cfg.thresholds.alertCooldown))
    ensures !r.drowsyTick ==> r.state.drowsyCount == Decay(s.drowsyCount) && !r.notified
    ensures r.sent <==> r.notified && notifierOk
    ensures r.state.lastAlertTime == if r.sent then Some(now) else s.lastAlertTime
  {
    if CountsAsDrowsy(d, cfg.thresholds) then
      var s2 := s.(drowsyCount := s.drowsyCount + 1, totalDrowsy := s.totalDrowsy + 1);
      if s2.drowsyCount >= cfg.thresholds.drowsyThreshold then
        var notify := CooldownOver(s2.lastAlertTime, now, cfg.thresholds.alertCooldown);
        var sent := notify && notifierOk;
        var s3 := if sent then s2.(lastAlertTime := Some(now)) else s2;
        SeatStep(s3.(drowsyCount := 0), true, notify, sent)
      else
        SeatStep(s2, true, false, false)
    else
      SeatStep(s.(drowsyCount := Decay(s.drowsyCount)), false, false, false)
  }

  /** What one `process_seat` call does: the check total grows by one; an empty seat
      gets a zero counter and no sample and calls no notifier; an occupied seat records
      the detector's sample; a confident drowsy verdict raises the counter and the drowsy
      total, and on reaching the threshold clears the counter whether or not the cooldown
      let the notifier be called; any other verdict lets the counter decay; the alert time
      moves only on a successful send. */
  lemma SeatTickBehaviour(cfg: SeatConfig, s: SeatState, occupied: bool, face: Option<FaceMeasures>,
                          now: int, notifierOk: bool)
    ensures var r := SeatTick(cfg, s, occupied, face, now, notifierOk);
            && r.state.totalChecks == s.totalChecks + 1
            && r.state.isOccupied == occupied
            && (!occupied ==> r.state == s.(totalChecks := s.totalChecks + 1, isOccupied := false, drowsyCount := 0)
                              && !r.drowsyTick && !r.notified && !r.sent)
            && (occupied ==>
                  var d := Detect(cfg.detector, face);
                  r.state.history == AppendHistory(s.history, Sample(now, d.isDrowsy, d.confidence, d.details)))
            && (r.drowsyTick <==> occupied && CountsAsDrowsy(Detect(cfg.detector, face), cfg.thresholds))
            && r.state.totalDrowsy == s.totalDrowsy + (if r.drowsyTick then 1 else 0)
            && (r.drowsyTick && s.drowsyCount + 1 < cfg.thresholds.drowsyThreshold ==>
                  r.state.drowsyCount == s.drowsyCount + 1 && !r.notified)
            && (r.drowsyTick && s.drowsyCount + 1 >= cfg.thresholds.drowsyThreshold ==>
                  r.state.drowsyCount == 0
                  && (r.notified <==> CooldownOver(s.lastAlertTime, now, cfg.thresholds.alertCooldown)))
            && (occupied && !r.drowsyTick ==> r.state.drowsyCount == Decay(s.drowsyCount) && !r.notified)
            && (r.sent <==> r.notified && notifierOk)
            && r.state.lastAlertTime == (if r.sent then Some(now) else s.lastAlertTime)
  {
  }

  /** An occupied seat's tick is the counting step applied once the check is counted, the
      seat marked occupied and the detector's sample recorded. */
  lemma SeatTickOccupied(cfg: SeatConfig, s: SeatState, face: Option<FaceMeasures>, now: int, notifierOk: bool)
    ensures var d := Detect(cfg.detector, face);
            SeatTick(cfg, s, true, face, now, notifierOk)
            == CountTick(cfg, s.(totalChecks := s.totalChecks + 1, isOccupied := true,
                                 history := AppendHistory(s.history, Sample(now, d.isDrowsy, d.confidence, d.details))),
                         d, now, notifierOk)
  {
  }

  /** Every tick keeps the seat invariant: in particular an empty seat has a zero counter,
      and with a threshold of at least 1 the counter stays below it. */
  lemma SeatTickKeepsInvariant(cfg: SeatConfig, s: SeatState, occupied: bool, face: Option<FaceMeasures>,
                               now: int, notifierOk: bool)
    requires SeatInvariant(s, cfg.thresholds)
    ensures SeatInvariant(SeatTick(cfg, s, occupied, face, now, notifierOk).state, cfg.thresholds)
  {
    SeatTickBehaviour(cfg, s, occupied, face, now, notifierOk);
  }

  /** The printed per-seat rate stays within 0..100 %. */
  lemma SeatRateBounded(s: SeatState, t: Thresholds)
    requires SeatInvariant(s, t)
    ensures 0.0 <= DrowsyRate(s.totalDrowsy, s.totalChecks) <= 100.0
  {
  }

  /** The inputs of one tick of one seat. */
  datatype TickInput = TickInput(occupied: bool, face: Option<FaceMeasures>, now: int, notifierOk: bool)

  /** A seat after a series of ticks, with the number of notifier calls and successes. */
  datatype SeatRun = SeatRun(state: SeatState, notified: nat, sent: nat)

  function RunSeat(cfg: SeatConfig, s: SeatState, inputs: seq<TickInput>): SeatRun
    decreases |inputs|
  {
    if inputs == [] then SeatRun(s, 0, 0)
    else
      var i := inputs[0];
      var step := SeatTick(cfg, s, i.occupied, i.face, i.now, i.notifierOk);
      var rest := RunSeat(cfg, step.state, inputs[1..]);
      SeatRun(rest.state, rest.notified + (if step.notified then 1 else 0),
              rest.sent + (if step.sent then 1 else 0))
  }

  predicate ConfidentDrowsy(cfg: SeatConfig, i: TickInput) {
    i.occupied && CountsAsDrowsy(Detect(cfg.detector, i.face), cfg.thresholds)
  }

  /** A streak of confident drowsy ticks that stays short of the threshold raises the
      counter by its length, calls no notifier and leaves the last alert time alone. */
  lemma {:induction false} StreakBelowThreshold(cfg: SeatConfig, s: SeatState, inputs: seq<TickInput>)
    requires forall k :: 0 <= k < |inputs| ==> ConfidentDrowsy(cfg, inputs[k])
    requires s.drowsyCount + |inputs| < cfg.thresholds.drowsyThreshold
    ensures RunSeat(cfg, s, inputs).state.drowsyCount == s.drowsyCount + |inputs|
    ensures RunSeat(cfg, s, inputs).notified == RunSeat(cfg, s, inputs).sent == 0
    ensures RunSeat(cfg, s, inputs).state.lastAlertTime == s.lastAlertTime
    decreases |inputs|
  {
    if inputs != [] {
      var i := inputs[0];
      var step := SeatTick(cfg, s, i.occupied, i.face, i.now, i.notifierOk);
      SeatTickBehaviour(cfg, s, i.occupied, i.face, i.now, i.notifierOk);
      StreakBelowThreshold(cfg, step.state, inputs[1..]);
    }
  }

  /** The seat invariant holds after any series of ticks, and the seat's totals grow by
      exactly one check per tick. */
  lemma {:induction false} RunSeatKeepsInvariant(cfg: SeatConfig, s: SeatState, inputs: seq<TickInput>)
    requires SeatInvariant(s, cfg.thresholds)
    ensures SeatInvariant(RunSeat(cfg, s, inputs).state, cfg.thresholds)
    ensures RunSeat(cfg, s, inputs).state.totalChecks == s.totalChecks + |inputs|
    ensures RunSeat(cfg, s, inputs).sent <= RunSeat(cfg, s, inputs).notified
    decreases |inputs|
  {
    if inputs != [] {
      var i := inputs[0];
      var step := SeatTick(cfg, s, i.occupied, i.face, i.now, i.notifierOk);
      SeatTickBehaviour(cfg, s, i.occupied, i.face, i.now, i.notifierOk);
      SeatTickKeepsInvariant(cfg, s, i.occupied, i.face, i.now, i.notifierOk);
      RunSeatKeepsInvariant(cfg, step.state, inputs[1..]);
    }
  }

  function DrowsyTicks(start: int, n: nat): (r: seq<TickInput>)
    ensures |r| == n
    ensures forall k :: 0 <= k < n ==> r[k] == TickInput(true, Some(HeadDownFace), start + 2 * k, true)
  {
    seq(n, k => TickInput(true, Some(HeadDownFace), start + 2 * k, true))
  }

  /** With four drowsy ticks counted, a fifth head-down tick reaches the threshold and
      clears the counter; the notifier is called, and succeeds, exactly when the cooldown
      is over, and only then does the alert time move. */
  lemma FifthSeatTick(s: SeatState, now: int)
    requires s.drowsyCount == 4
    ensures var r := RunSeat(DefaultSeatConfig, s, [TickInput(true, Some(HeadDownFace), now, true)]);
            var allowed := CooldownOver(s.lastAlertTime, now, DefaultThresholds.alertCooldown);
            && r.state.drowsyCount == 0
            && r.notified == r.sent == (if allowed then 1 else 0)
            && r.state.lastAlertTime == (if allowed then Some(now) else s.lastAlertTime)
  {
    HeadDownFaceVerdict();
    SeatTickBehaviour(DefaultSeatConfig, s, true, Some(HeadDownFace), now, true);
    assert [TickInput(true, Some(HeadDownFace), now, true)][1..] == [];
  }

  /** Five head-down ticks every 2 s from `start`, the first four short of the threshold,
      the fifth as `FifthSeatTick` says. */
  lemma FiveSeatTicks(s: SeatState, start: int)
    requires s.drowsyCount == 0
    ensures var r := RunSeat(DefaultSeatConfig, s, DrowsyTicks(start, 5));
            var allowed := CooldownOver(s.lastAlertTime, start + 8, DefaultThresholds.alertCooldown);
            && r.state.drowsyCount == 0
            && r.notified == r.sent == (if allowed then 1 else 0)
            && r.state.lastAlertTime == (if allowed then Some(start + 8) else s.lastAlertTime)
  {
    var cfg := DefaultSeatConfig;
    HeadDownFaceVerdict();
    var ticks := DrowsyTicks(start, 5);
    assert forall k :: 0 <= k < 4 ==> ticks[..4][k].face == Some(HeadDownFace) && ticks[..4][k].occupied;
    StreakBelowThreshold(cfg, s, ticks[..4]);
    RunSeatSplit(cfg, s, ticks[..4], ticks[4..]);
    assert ticks[..4] + ticks[4..] == ticks;
    assert ticks[4..] == [TickInput(true, Some(HeadDownFace), start + 8, true)];
    FifthSeatTick(RunSeat(cfg, s, ticks[..4]).state, start + 8);
  }

  /** Threshold 5, confidence 0.80, cooldown 300, one tick every 2 s from any start time
      `t0`: five drowsy ticks at t0 .. t0+8 send one alert at t0+8 and clear the counter;
      five more at t0+10 .. t0+18 reach the threshold again, the cooldown keeps the notifier
      silent, and the counter is cleared all the same. */
  lemma EndToEndScenario(t0: int)
    ensures var first := RunSeat(DefaultSeatConfig, InitialSeatState(), DrowsyTicks(t0, 5));
            && first.notified == 1 && first.sent == 1
            && first.state.drowsyCount == 0 && first.state.lastAlertTime == Some(t0 + 8)
            && var second := RunSeat(DefaultSeatConfig, first.state, DrowsyTicks(t0 + 10, 5));
               second.notified == 0 && second.sent == 0
               && second.state.drowsyCount == 0 && second.state.lastAlertTime == Some(t0 + 8)
  {
    FiveSeatTicks(InitialSeatState(), t0);
    var first := RunSeat(DefaultSeatConfig, InitialSeatState(), DrowsyTicks(t0, 5));
    FiveSeatTicks(first.state, t0 + 10);
  }

  /** Running two series of ticks one after the other is running their concatenation. */
  lemma {:induction false} RunSeatSplit(cfg: SeatConfig, s: SeatState, a: seq<TickInput>, b: seq<TickInput>)
    ensures var ra := RunSeat(cfg, s, a);
            var rb := RunSeat(cfg, ra.state, b);
            RunSeat(cfg, s, a + b) == SeatRun(rb.state, ra.notified + rb.notified, ra.sent + rb.sent)
    decreases |a|
  {
    if a == [] {
      assert a + b == b;
    } else {
      var i := a[0];
      var step := SeatTick(cfg, s, i.occupied, i.face, i.now, i.notifierOk);
      RunSeatSplit(cfg, step.state, a[1..], b);
      assert (a + b)[1..] == a[1..] + b;
    }
  }

  /** What the monitor observes for one seat during one frame, besides its pixels:
      the region's mean brightness and edge density, the face model's measurements,
      the clock and the notifier's answer. */
  datatype SeatObservation = SeatObservation(brightness: real, edgeDensity: real,
                                             face: Option<FaceMeasures>, now: int, notifierOk: bool)

  /** A seat's state, or a fresh one when it has none yet. */
  function StateOrInitial(m: map<string, SeatState>, id: string): SeatState {
    if id in m then m[id] else InitialSeatState()
  }

  /** What one frame does to one seat whose state (or fresh state) is `s`: a seat whose
      region cannot be cut out is left as it is, any other seat takes one tick. */
  function FrameStep(cfg: SeatConfig, s: SeatState, seats: map<string, Capture.Seat>,
                     screen: Capture.Image, id: string, ob: SeatObservation): (r: SeatStep)
    ensures !Capture.RoiFits(seats, screen, id) ==> r == SeatStep(s, false, false, false)
    ensures Capture.RoiFits(seats, screen, id) ==> r.state.totalChecks == s.totalChecks + 1
  {
    if Capture.RoiFits(seats, screen, id) then
      SeatTick(cfg, s, IsSeatOccupied(cfg, ob.brightness, ob.edgeDensity), ob.face, ob.now, ob.notifierOk)
    else
      SeatStep(s, false, false, false)
  }

  /** The seat states after a frame, with the frame's drowsy ticks and successful alerts. */
  datatype FrameRun = FrameRun(states: map<string, SeatState>, drowsy: nat, sent: nat)

  /** A frame so far, with seat `id` given the outcome `step`. */
  function TickRun(prev: FrameRun, id: string, step: SeatStep): FrameRun {
    FrameRun(prev.states[id := step.state],
             prev.drowsy + (if step.drowsyTick then 1 else 0),
             prev.sent + (if step.sent then 1 else 0))
  }

  /** A frame so far, extended by a visit to seat `id` showing `ob`. */
  function ExtendRun(cfg: SeatConfig, prev: FrameRun, seats: map<string, Capture.Seat>,
                     screen: Capture.Image, id: string, ob: SeatObservation): FrameRun
  {
    TickRun(prev, id, FrameStep(cfg, StateOrInitial(prev.states, id), seats, screen, id, ob))
  }

  /** A visit first gives the seat a state if it has none; then, when its region fits the
      frame, the seat takes one tick from that state, and otherwise nothing more happens. */
  lemma ExtendRunCases(cfg: SeatConfig, prev: FrameRun, seats: map<string, Capture.Seat>,
                       screen: Capture.Image, id: string, ob: SeatObservation)
    ensures var s := StateOrInitial(prev.states, id);
            var added := prev.(states := prev.states[id := s]);
            ExtendRun(cfg, prev, seats, screen, id, ob)
            == if Capture.RoiFits(seats, screen, id)
               then TickRun(added, id, SeatTick(cfg, s, IsSeatOccupied(cfg, ob.brightness, ob.edgeDensity),
                                                ob.face, ob.now, ob.notifierOk))
               else added
  {
    var s := StateOrInitial(prev.states, id);
    assert prev.states[id := s][id := s] == prev.states[id := s];
    if Capture.RoiFits(seats, screen, id) {
      var step := SeatTick(cfg, s, IsSeatOccupied(cfg, ob.brightness, ob.edgeDensity), ob.face, ob.now, ob.notifierOk);
      assert prev.states[id := s][id := step.state] == prev.states[id := step.state];
    }
  }

  /** A frame whose totals start from `drowsy` and `sent` instead of zero. */
  function ShiftedRun(r: FrameRun, drowsy: nat, sent: nat): FrameRun {
    r.(drowsy := r.drowsy + drowsy, sent := r.sent + sent)
  }

  /** A visit adds to the totals whatever they started from. */
  lemma ExtendRunShifted(cfg: SeatConfig, prev: FrameRun, seats: map<string, Capture.Seat>,
                         screen: Capture.Image, id: string, ob: SeatObservation, drowsy: nat, sent: nat)
    ensures ExtendRun(cfg, ShiftedRun(prev, drowsy, sent), seats, screen, id, ob)
            == ShiftedRun(ExtendRun(cfg, prev, seats, screen, id, ob), drowsy, sent)
  {
  }

  /** The seats of one frame visited one after the other in the order `order` lists
      them, `obs[i]` being what seat `order[i]` shows. */
  function RunSeats(cfg: SeatConfig, m: map<string, SeatState>, seats: map<string, Capture.Seat>,
                    screen: Capture.Image, order: seq<string>, obs: seq<SeatObservation>): FrameRun
    requires |order| == |obs|
    decreases |order|
  {
    if order == [] then FrameRun(m, 0, 0)
    else
      var n := |order| - 1;
      ExtendRun(cfg, RunSeats(cfg, m, seats, screen, order[..n], obs[..n]), seats, screen, order[n], obs[n])
  }

  /** Visiting one more seat extends a frame by that seat's step. */
  lemma RunSeatsStep(cfg: SeatConfig, m: map<string, SeatState>, seats: map<string, Capture.Seat>,
                     screen: Capture.Image, order: seq<string>, obs: seq<SeatObservation>, i: nat)
    requires |order| == |obs|
    requires i < |order|
    ensures RunSeats(cfg, m, seats, screen, order[..i + 1], obs[..i + 1])
            == ExtendRun(cfg, RunSeats(cfg, m, seats, screen, order[..i], obs[..i]), seats, screen, order[i], obs[i])
  {
    assert order[..i + 1][..i] == order[..i] && obs[..i + 1][..i] == obs[..i];
  }

  /** A frame gives every listed seat a state and removes none. */
  lemma {:induction false} RunSeatsKeys(cfg: SeatConfig, m: map<string, SeatState>,
                                        seats: map<string, Capture.Seat>, screen: Capture.Image,
                                        order: seq<string>, obs: seq<SeatObservation>)
    requires |order| == |obs|
    ensures RunSeats(cfg, m, seats, screen, order, obs).states.Keys == m.Keys + (set id | id in order)
    decreases |order|
  {
    if order != [] {
      var n := |order| - 1;
      RunSeatsKeys(cfg, m, seats, screen, order[..n], obs[..n]);
      assert order == order[..n] + [order[n]];
      assert (set id | id in order) == (set id | id in order[..n]) + {order[n]};
    }
  }

  /** A seat the frame does not list keeps its state. */
  lemma {:induction false} RunSeatsFrame(cfg: SeatConfig, m: map<string, SeatState>,
                                         seats: map<string, Capture.Seat>, screen: Capture.Image,
                                         order: seq<string>, obs: seq<SeatObservation>, id: string)
    requires |order| == |obs|
    requires id !in order
    ensures StateOrInitial(RunSeats(cfg, m, seats, screen, order, obs).states, id) == StateOrInitial(m, id)
    ensures id in RunSeats(cfg, m, seats, screen, order, obs).states <==> id in m
    decreases |order|
  {
    if order != [] {
      var n := |order| - 1;
      assert id !in order[..n];
      RunSeatsFrame(cfg, m, seats, screen, order[..n], obs[..n], id);
    }
  }

  /** When no seat is listed twice, a frame gives each listed seat its own tick from the
      state it had before the frame. */
  lemma {:induction false} RunSeatsPointwise(cfg: SeatConfig, m: map<string, SeatState>,
                                             seats: map<string, Capture.Seat>, screen: Capture.Image,
                                             order: seq<string>, obs: seq<SeatObservation>)
    requires |order| == |obs|
    requires forall i, j :: 0 <= i < j < |order| ==> order[i] != order[j]
    ensures forall i :: 0 <= i < |order| ==>
              && order[i] in RunSeats(cfg, m, seats, screen, order, obs).states
              && RunSeats(cfg, m, seats, screen, order, obs).states[order[i]]
              == FrameStep(cfg, StateOrInitial(m, order[i]), seats, screen, order[i], obs[i]).state
    decreases |order|
  {
    if order != [] {
      var n := |order| - 1;
      RunSeatsPointwise(cfg, m, seats, screen, order[..n], obs[..n]);
      RunSeatsFrame(cfg, m, seats, screen, order[..n], obs[..n], order[n]);
      forall i | 0 <= i < n
        ensures && order[i] in RunSeats(cfg, m, seats, screen, order, obs).states
                && RunSeats(cfg, m, seats, screen, order, obs).states[order[i]]
                == FrameStep(cfg, StateOrInitial(m, order[i]), seats, screen, order[i], obs[i]).state
      {
        assert order[..n][i] == order[i] && obs[..n][i] == obs[i];
      }
    }
  }

  /** Every seat state a frame produces keeps the seat invariant. */
  lemma {:induction false} RunSeatsKeepsInvariant(cfg: SeatConfig, m: map<string, SeatState>,
                                                  seats: map<string, Capture.Seat>, screen: Capture.Image,
                                                  order: seq<string>, obs: seq<SeatObservation>)
    requires |order| == |obs|
    requires forall id :: id in m ==> SeatInvariant(m[id], cfg.thresholds)
    ensures var r := RunSeats(cfg, m, seats, screen, order, obs);
            && (forall id :: id in r.states ==> SeatInvariant(r.states[id], cfg.thresholds))
            && r.sent <= r.drowsy <= |order|
    decreases |order|
  {
    if order != [] {
      var n := |order| - 1;
      RunSeatsKeepsInvariant(cfg, m, seats, screen, order[..n], obs[..n]);
      var prev := RunSeats(cfg, m, seats, screen, order[..n], obs[..n]);
      var id := order[n];
      var ob := obs[n];
      var s := StateOrInitial(prev.states, id);
      InitialSeatStateValid(cfg.thresholds);
      SeatTickKeepsInvariant(cfg, s, IsSeatOccupied(cfg, ob.brightness, ob.edgeDensity), ob.face, ob.now, ob.notifierOk);
    }
  }

  /** `AccurateStudentMonitor`: the per-seat states and the global counters. */
  class StudentMonitor {
    const cfg: SeatConfig
    var seatStates: map<string, SeatState>
    var totalChecks: nat
    var drowsyDetections: nat
    var alertsSent: nat

    /** Every seat state keeps the seat invariant. */
    ghost predicate Valid()
      reads this
    {
      forall id :: id in seatStates ==> SeatInvariant(seatStates[id], cfg.thresholds)
    }

    /** The seat states with the drowsy and alert totals, as a frame sees them. */
    ghost function Progress(): FrameRun
      reads this
    {
      FrameRun(seatStates, drowsyDetections, alertsSent)
    }

    constructor (cfg: SeatConfig)
      ensures this.cfg == cfg && seatStates == map[]
      ensures totalChecks == 0 && drowsyDetections == 0 && alertsSent == 0
      ensures Valid()
    {
      this.cfg := cfg;
      seatStates := map[];
      totalChecks := 0;
      drowsyDetections := 0;
      alertsSent := 0;
    }

    /** `update_seat_history`: append the sample and drop the oldest beyond ten. */
    method UpdateSeatHistory(seatId: string, d: Detection, now: int)
      requires seatId in seatStates
      modifies this
      ensures seatStates == old(seatStates)[seatId := old(seatStates[seatId]).(
                history := AppendHistory(old(seatStates[seatId]).history,
                                         Sample(now, d.isDrowsy, d.confidence, d.details)))]
      ensures totalChecks == old(totalChecks) && drowsyDetections == old(drowsyDetections)
      ensures alertsSent == old(alertsSent)
    {
      var state := seatStates[seatId];
      var sample := Sample(now, d.isDrowsy, d.confidence, d.details);
      var history := state.history + [sample];
      if |history| > HistoryCapacity {
        history := history[1..];
      }
      assert history == AppendHistory(state.history, sample);
      seatStates := seatStates[seatId := state.(history := history)];
    }

    /** `send_alert`, gated by `should_send_alert`: the notifier is called only once the
        cooldown is over, and the alert time and the alert total move only when it
        reports success. Returns whether the notifier was called. */
    method SendAlert(seatId: string, now: int, notifierOk: bool) returns (notified: bool)
      requires seatId in seatStates
      modifies this
      ensures notified == CooldownOver(old(seatStates[seatId]).lastAlertTime, now, cfg.thresholds.alertCooldown)
      ensures seatStates == if notified && notifierOk
                            then old(seatStates)[seatId := old(seatStates[seatId]).(lastAlertTime := Some(now))]
                            else old(seatStates)
      ensures alertsSent == old(alertsSent) + (if notified && notifierOk then 1 else 0)
      ensures totalChecks == old(totalChecks) && drowsyDetections == old(drowsyDetections)
    {
      notified := CooldownOver(seatStates[seatId].lastAlertTime, now, cfg.thresholds.alertCooldown);
      if notified && notifierOk {
        seatStates := seatStates[seatId := seatStates[seatId].(lastAlertTime := Some(now))];
        alertsSent := alertsSent + 1;
      }
    }

    /** The counting step of `process_seat`: the counter, the drowsy totals and the alert,
        as `CountTick` describes them. */
    method CountDrowsiness(seatId: string, d: Detection, now: int, notifierOk: bool) returns (notified: bool)
      requires seatId in seatStates
      modifies this
      ensures var step := CountTick(cfg, old(seatStates[seatId]), d, now, notifierOk);
              && seatStates == old(seatStates)[seatId := step.state]
              && notified == step.notified
              && drowsyDetections == old(drowsyDetections) + (if step.drowsyTick then 1 else 0)
              && alertsSent == old(alertsSent) + (if step.sent then 1 else 0)
      ensures totalChecks == old(totalChecks)
    {
      notified := false;
      var state := seatStates[seatId];
      if d.isDrowsy && d.confidence >= cfg.thresholds.confidenceThreshold {
        state := state.(drowsyCount := state.drowsyCount + 1, totalDrowsy := state.totalDrowsy + 1);
        seatStates := seatStates[seatId := state];
        drowsyDetections := drowsyDetections + 1;
        if state.drowsyCount >= cfg.thresholds.drowsyThreshold {
          notified := SendAlert(seatId, now, notifierOk);
          seatStates := seatStates[seatId := seatStates[seatId].(drowsyCount := 0)];
        }
      } else {
        seatStates := seatStates[seatId := state.(drowsyCount := Decay(state.drowsyCount))];
      }
    }

    /** `process_seat` for a seat judged occupied: the check is counted, the seat marked
        occupied, the detector's sample recorded, and the counter and alert handled. */
    method ProcessOccupiedSeat(seatId: string, face: Option<FaceMeasures>, now: int, notifierOk: bool)
      returns (notified: bool)
      requires seatId in seatStates
      modifies this
      ensures var step := SeatTick(cfg, old(seatStates[seatId]), true, face, now, notifierOk);
              Progress() == TickRun(old(Progress()), seatId, step) && notified == step.notified
      ensures totalChecks == old(totalChecks)
    {
      ghost var prev := Progress();
      var state := seatStates[seatId];
      state := state.(totalChecks := state.totalChecks + 1, isOccupied := true);
      seatStates := seatStates[seatId := state];
      var d := Detect(cfg.detector, face);
      UpdateSeatHistory(seatId, d, now);
      ghost var observed := state.(history := AppendHistory(state.history, Sample(now, d.isDrowsy, d.confidence, d.details)));
      assert seatStates == prev.states[seatId := observed];
      SeatTickOccupied(cfg, old(seatStates[seatId]), face, now, notifierOk);
      notified := CountDrowsiness(seatId, d, now, notifierOk);
      ghost var step := CountTick(cfg, observed, d, now, notifierOk);
      assert prev.states[seatId := observed][seatId := step.state] == prev.states[seatId := step.state];
    }

    /** `process_seat`: one tick of one seat, exactly as `SeatTick` describes it. */
    method ProcessSeat(seatId: string, brightness: real, edgeDensity: real, face: Option<FaceMeasures>,
                       now: int, notifierOk: bool) returns (notified: bool)
      requires seatId in seatStates
      requires Valid()
      modifies this
      ensures Valid()
      ensures var step := SeatTick(cfg, old(seatStates[seatId]), IsSeatOccupied(cfg, brightness, edgeDensity),
                                   face, now, notifierOk);
              Progress() == TickRun(old(Progress()), seatId, step) && notified == step.notified
      ensures totalChecks == old(totalChecks)
    {
      if !IsSeatOccupied(cfg, brightness, edgeDensity) {
        var state := seatStates[seatId];
        seatStates := seatStates[seatId := state.(totalChecks := state.totalChecks + 1, isOccupied := false,
                                                  drowsyCount := 0)];
        notified := false;
      } else {
        notified := ProcessOccupiedSeat(seatId, face, now, notifierOk);
      }
      SeatTickKeepsInvariant(cfg, old(seatStates[seatId]), IsSeatOccupied(cfg, brightness, edgeDensity), face, now, notifierOk);
    }

    /** The body of the `run` loop for one seat: give the seat a state if it has none,
        cut out its region and, when that succeeds, process it. */
    method VisitSeat(seats: map<string, Capture.Seat>, screen: Capture.Image, seatId: string, ob: SeatObservation)
      requires Valid()
      requires Capture.Rectangular(screen)
      modifies this
      ensures Valid()
      ensures Progress() == ExtendRun(cfg, old(Progress()), seats, screen, seatId, ob)
      ensures totalChecks == old(totalChecks)
    {
      ExtendRunCases(cfg, Progress(), seats, screen, seatId, ob);
      if seatId !in seatStates {
        seatStates := seatStates[seatId := InitialSeatState()];
        InitialSeatStateValid(cfg.thresholds);
      }
      var roi := Capture.GetSeatRoi(seats, screen, seatId);
      if roi.Some? {
        var _ := ProcessSeat(seatId, ob.brightness, ob.edgeDensity, ob.face, ob.now, ob.notifierOk);
      }
    }

    /** The inner loop of `run`: the seats visited one after the other, in the order
        `order` lists them, `obs[i]` being what seat `order[i]` shows. */
    method VisitSeats(seats: map<string, Capture.Seat>, screen: Capture.Image, order: seq<string>,
                      obs: seq<SeatObservation>)
      requires Valid()
      requires Capture.Rectangular(screen)
      requires |obs| == |order|
      modifies this
      ensures Valid()
      ensures var r := RunSeats(cfg, old(seatStates), seats, screen, order, obs);
              && seatStates == r.states
              && drowsyDetections == old(drowsyDetections) + r.drowsy
              && alertsSent == old(alertsSent) + r.sent
      ensures totalChecks == old(totalChecks)
    {
      var i := 0;
      while i < |order|
        invariant 0 <= i <= |order|
        invariant Valid()
        invariant totalChecks == old(totalChecks)
        invariant Progress() == ShiftedRun(RunSeats(cfg, old(seatStates), seats, screen, order[..i], obs[..i]),
                                           old(drowsyDetections), old(alertsSent))
      {
        RunSeatsStep(cfg, old(seatStates), seats, screen, order, obs, i);
        ExtendRunShifted(cfg, RunSeats(cfg, old(seatStates), seats, screen, order[..i], obs[..i]), seats, screen,
                         order[i], obs[i], old(drowsyDetections), old(alertsSent));
        VisitSeat(seats, screen, order[i], obs[i]);
        i := i + 1;
      }
      assert order[..|order|] == order && obs[..|obs|] == obs;
    }

    /** One pass of the `run` loop, over the seat table's keys in the order `order` lists
        them, with `obs[i]` what seat `order[i]` shows. No screen: nothing changes.
        Otherwise the frame is counted once and the seats are visited in turn; each
        listed seat ends with the state its own tick gives it and every other seat keeps
        its state. */
    method RunFrame(seats: map<string, Capture.Seat>, order: seq<string>, screen: Option<Capture.Image>,
                    obs: seq<SeatObservation>)
      requires Valid()
      requires screen.Some? ==> Capture.Rectangular(screen.value)
      requires |obs| == |order|
      requires forall i, j :: 0 <= i < j < |order| ==> order[i] != order[j]
      requires forall id :: id in seats <==> id in order
      modifies this
      ensures Valid()
      ensures screen.None? ==>
                seatStates == old(seatStates) && totalChecks == old(totalChecks)
                && drowsyDetections == old(drowsyDetections) && alertsSent == old(alertsSent)
      ensures screen.Some? ==>
                var r := RunSeats(cfg, old(seatStates), seats, screen.value, order, obs);
                && seatStates == r.states
                && totalChecks == old(totalChecks) + 1
                && drowsyDetections == old(drowsyDetections) + r.drowsy
                && alertsSent == old(alertsSent) + r.sent
      ensures screen.Some? ==>
                && seatStates.Keys == old(seatStates).Keys + seats.Keys
                && (forall i :: 0 <= i < |order| ==>
                      seatStates[order[i]]
                      == FrameStep(cfg, StateOrInitial(old(seatStates), order[i]), seats, screen.value, order[i], obs[i]).state)
                && (forall id :: id in old(seatStates) && id !in seats ==> seatStates[id] == old(seatStates)[id])
    {
      if screen.None? {
        return;
      }
      totalChecks := totalChecks + 1;
      VisitSeats(seats, screen.value, order, obs);
      RunSeatsPointwise(cfg, old(seatStates), seats, screen.value, order, obs);
      RunSeatsKeys(cfg, old(seatStates), seats, screen.value, order, obs);
      assert (set id | id in order) == seats.Keys;
      forall id | id in old(seatStates) && id !in seats
        ensures seatStates[id] == old(seatStates)[id]
      {
        RunSeatsFrame(cfg, old(seatStates), seats, screen.value, order, obs, id);
      }
    }
  }
}
