/** The channel-button editor of channel_setup.py: first the user drags the capture
    region and confirms it with Enter, then clicks the channel buttons in order; they are
    stored under "1", "2", ... up to 16, and 'd' removes the highest-numbered one.
    Drawing, key reading, screen grabs and the file write are external. */
module ButtonSetup {
  import opened Common
  import Geometry
  import Tables
  import Decimal

  /** At most this many channel buttons. */
  const MaxButtons: nat := 16

  /** The capture region must be at least this many pixels wide and high. */
  const MinRegionSide: nat := 100

  /** `setup_stage`: "capture_region", then "buttons". */
  datatype Stage = CaptureRegion | Buttons

  /** The numbers 1..n. */
  function Range(n: nat): (r: set<nat>)
    ensures forall i :: i in r <==> 1 <= i <= n
  {
    if n == 0 then {} else Range(n - 1) + {n}
  }

  /** `get_capture_region_rect`: nothing while a drag point is missing or the dragged
      rectangle is under 100 pixels either way; otherwise the dragged rectangle. */
  function CaptureRegionRect(start: Option<Geometry.Point>, end: Option<Geometry.Point>): (r: Option<Geometry.Rect>)
    ensures r.Some? <==> && start.Some? && end.Some?
                         && Geometry.Abs(end.value.x - start.value.x) >= MinRegionSide
                         && Geometry.Abs(end.value.y - start.value.y) >= MinRegionSide
    ensures r.Some? ==> r.value == Geometry.DragRect(start.value, end.value)
                        && r.value.width >= MinRegionSide && r.value.height >= MinRegionSide
  {
    if start.None? || end.None? then None
    else
      var g := Geometry.DragRect(start.value, end.value);
      if g.width < MinRegionSide || g.height < MinRegionSide then None else Some(g)
  }

  /** A saved table of n buttons gives the channel controller a button for exactly the
      channels 1..n. */
  lemma SavedButtonsCoverChannels(m: map<nat, Geometry.Point>, n: nat)
    requires m.Keys == Range(n)
    ensures forall ch: nat :: Decimal.Show(ch) in Tables.TextKeys(m) <==> 1 <= ch <= n
  {
    forall ch: nat
      ensures Decimal.Show(ch) in Tables.TextKeys(m) <==> 1 <= ch <= n
    {
      Tables.TextKeysLookup(m, ch);
    }
  }

  /** `ChannelSetup`'s editing state, the buttons held by channel number. */
  class ChannelSetup {
    var channelButtons: map<nat, Geometry.Point>
    var captureRegion: Option<Geometry.Rect>
    var stage: Stage
    var drawing: bool
    var startPoint: Option<Geometry.Point>
    var endPoint: Option<Geometry.Point>

    /** The buttons are exactly channels 1..n for some n <= 16, the buttons stage is only
        reached with a region, and a stored region is large enough. */
    ghost predicate Valid()
      reads this
    {
      && channelButtons.Keys == Range(|channelButtons|)
      && |channelButtons| <= MaxButtons
      && (stage == Buttons ==> captureRegion.Some?)
      && (captureRegion.Some? ==>
            captureRegion.value.width >= MinRegionSide && captureRegion.value.height >= MinRegionSide)
    }

    constructor ()
      ensures channelButtons == map[] && captureRegion.None? && stage == CaptureRegion
      ensures !drawing && startPoint.None? && endPoint.None?
      ensures Valid()
    {
      channelButtons := map[];
      captureRegion := None;
      stage := CaptureRegion;
      drawing := false;
      startPoint := None;
      endPoint := None;
      assert Range(0) == {};
    }

    /** `add_button`: the click becomes the button of the next channel, `len + 1`,
        unless 16 are already set, in which case nothing changes. */
    method AddButton(p: Geometry.Point)
      requires Valid()
      modifies this
      ensures Valid()
      ensures |old(channelButtons)| < MaxButtons ==>
                var next := |old(channelButtons)| + 1;
                && next !in old(channelButtons)
                && channelButtons == old(channelButtons)[next := p]
                && |channelButtons| == next
      ensures |old(channelButtons)| >= MaxButtons ==> channelButtons == old(channelButtons)
      ensures captureRegion == old(captureRegion) && stage == old(stage)
      ensures drawing == old(drawing) && startPoint == old(startPoint) && endPoint == old(endPoint)
    {
      var next := |channelButtons| + 1;
      if next > MaxButtons {
        return;
      }
      channelButtons := channelButtons[next := p];
      assert channelButtons.Keys == Range(next);
    }

    /** `delete_last_button`: on an empty table nothing changes; otherwise the button
        of the highest channel, which is the count, goes. */
    method DeleteLastButton() returns (deleted: Option<nat>)
      requires Valid()
      modifies this
      ensures Valid()
      ensures deleted.None? <==> old(channelButtons) == map[]
      ensures deleted.None? ==> channelButtons == old(channelButtons)
      ensures deleted.Some? ==>
                && deleted.value == |old(channelButtons)|
                && (forall n :: n in old(channelButtons) ==> n <= deleted.value)
                && channelButtons == old(channelButtons) - {deleted.value}
                && |channelButtons| == |old(channelButtons)| - 1
      ensures captureRegion == old(captureRegion) && stage == old(stage)
      ensures drawing == old(drawing) && startPoint == old(startPoint) && endPoint == old(endPoint)
    {
      if channelButtons == map[] {
        return None;
      }
      var maxCh := Tables.MaxKey(channelButtons);
      ghost var n := |channelButtons|;
      assert n in Range(n);
      assert maxCh == n;
      channelButtons := channelButtons - {maxCh};
      assert channelButtons.Keys == Range(n - 1);
      deleted := Some(maxCh);
    }

    /** `mouse_callback`: while the region is being chosen, press, move and release drag
        it as in the seat editor; once on the buttons, a press adds a button and nothing
        else reacts. */
    method MouseCallback(event: Geometry.MouseEvent, p: Geometry.Point)
      requires Valid()
      modifies this
      ensures Valid()
      ensures stage == old(stage) && captureRegion == old(captureRegion)
      ensures old(stage) == CaptureRegion ==>
                && channelButtons == old(channelButtons)
                && (event == Geometry.LeftButtonDown ==> drawing && startPoint == Some(p) && endPoint == Some(p))
                && (event == Geometry.MouseMove ==>
                      drawing == old(drawing) && startPoint == old(startPoint)
                      && endPoint == if old(drawing) then Some(p) else old(endPoint))
                && (event == Geometry.LeftButtonUp ==>
                      !drawing && startPoint == old(startPoint) && endPoint == Some(p))
                && (event == Geometry.OtherEvent ==>
                      drawing == old(drawing) && startPoint == old(startPoint) && endPoint == old(endPoint))
      ensures old(stage) == Buttons ==>
                && drawing == old(drawing) && startPoint == old(startPoint) && endPoint == old(endPoint)
                && (event != Geometry.LeftButtonDown ==> channelButtons == old(channelButtons))
                && (event == Geometry.LeftButtonDown && |old(channelButtons)| < MaxButtons ==>
                      channelButtons == old(channelButtons)[|old(channelButtons)| + 1 := p])
                && (event == Geometry.LeftButtonDown && |old(channelButtons)| >= MaxButtons ==>
                      channelButtons == old(channelButtons))
    {
      if stage == CaptureRegion {
        match event
        case LeftButtonDown =>
          drawing := true;
          startPoint := Some(p);
          endPoint := Some(p);
        case MouseMove =>
          if drawing {
            endPoint := Some(p);
          }
        case LeftButtonUp =>
          drawing := false;
          endPoint := Some(p);
        case OtherEvent =>
      } else if event == Geometry.LeftButtonDown {
        AddButton(p);
      }
    }

    /** Enter in the `run` loop: while the region is being chosen, a valid dragged region
        is stored and the buttons stage begins; otherwise nothing changes. */
    method PressEnter()
      requires Valid()
      modifies this
      ensures Valid()
      ensures old(stage) == CaptureRegion && CaptureRegionRect(startPoint, endPoint).Some? ==>
                stage == Buttons && captureRegion == CaptureRegionRect(startPoint, endPoint)
      ensures !(old(stage) == CaptureRegion && CaptureRegionRect(startPoint, endPoint).Some?) ==>
                stage == old(stage) && captureRegion == old(captureRegion)
      ensures channelButtons == old(channelButtons)
      ensures drawing == old(drawing) && startPoint == old(startPoint) && endPoint == old(endPoint)
    {
      if stage == CaptureRegion {
        var region := CaptureRegionRect(startPoint, endPoint);
        if region.Some? {
          captureRegion := region;
          stage := Buttons;
        }
      }
    }

    /** `save_config`: refused without writing while no region is set, and when fewer
        than 16 buttons are set and the user does not confirm; otherwise the buttons (under
        their `str` keys), 16 channels and the region are written, and `writeOk` stands
        for the writer's answer. Returns what was written, if anything, and the result. */
    method SaveConfig(confirmed: bool, writeOk: bool)
      returns (written: Option<(map<string, Geometry.Point>, Geometry.Rect)>, saved: bool)
      ensures captureRegion.None? ==> written.None?
      ensures written.Some? <==> captureRegion.Some? && (|channelButtons| >= MaxButtons || confirmed)
      ensures written.Some? ==> written.value == (Tables.TextKeys(channelButtons), captureRegion.value)
      ensures saved <==> written.Some? && writeOk
    {
      if captureRegion.None? {
        return None, false;
      }
      if |channelButtons| < MaxButtons && !confirmed {
        return None, false;
      }
      return Some((Tables.TextKeys(channelButtons), captureRegion.value)), writeOk;
    }
  }
}
