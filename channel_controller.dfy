/** The channel switcher of src/channel_controller.py: the viewer shows one channel at a
    time, and clicking a channel's numbered button brings that channel up. Button
    positions and the channel count come from the saved configuration; the click and the
    screen grab are external and appear here as outcomes given by the caller. */
module ChannelControl {
  import opened Common
  import Decimal
  import Geometry
  import Capture

  /** `total_channels` when the configuration gives none. */
  const DefaultTotalChannels: int := 16

  /** How many channels `range(1, total + 1)` visits. */
  function ChannelCount(total: int): (n: nat)
    ensures total >= 0 ==> n == total
    ensures total < 0 ==> n == 0
  {
    if total < 0 then 0 else total
  }

  /** The channel after `current`, wrapping to 1 past the last. */
  function NextChannel(current: int, total: int): (r: int)
    ensures current < total ==> r == current + 1
    ensures current >= total ==> r == 1
    ensures 1 <= current <= total ==> 1 <= r <= total
  {
    if current + 1 > total then 1 else current + 1
  }

  /** The channel before `current`, wrapping to the last below 1. */
  function PreviousChannel(current: int, total: int): (r: int)
    ensures current > 1 ==> r == current - 1
    ensures current <= 1 ==> r == total
    ensures 1 <= current <= total ==> 1 <= r <= total
  {
    if current - 1 < 1 then total else current - 1
  }

  /** On a valid channel, next and previous undo each other. */
  lemma NextPreviousInverse(c: int, total: int)
    requires 1 <= c <= total
    ensures PreviousChannel(NextChannel(c, total), total) == c
    ensures NextChannel(PreviousChannel(c, total), total) == c
  {
  }

  /** `current` after `k` steps forward. */
  function NextTimes(c: int, total: int, k: nat): int
    decreases k
  {
    if k == 0 then c else NextChannel(NextTimes(c, total, k - 1), total)
  }

  /** Steps compose: a steps then b steps is a + b steps. */
  lemma {:induction false} NextTimesAdd(c: int, total: int, a: nat, b: nat)
    ensures NextTimes(c, total, a + b) == NextTimes(NextTimes(c, total, a), total, b)
    decreases b
  {
    if b > 0 {
      NextTimesAdd(c, total, a, b - 1);
    }
  }

  /** Below the last channel, k steps forward is plain counting. */
  lemma {:induction false} NextTimesClimb(c: int, total: int, k: nat)
    requires 1 <= c && c + k <= total
    ensures NextTimes(c, total, k) == c + k
    decreases k
  {
    if k > 0 {
      NextTimesClimb(c, total, k - 1);
    }
  }

  /** Stepping forward visits every channel and comes back to the start after exactly
      `total` steps. */
  lemma NextTimesFullCycle(c: int, total: int)
    requires 1 <= c <= total
    ensures NextTimes(c, total, total) == c
    ensures forall k :: 0 <= k <= total - c ==> NextTimes(c, total, k) == c + k
  {
    forall k | 0 <= k <= total - c
      ensures NextTimes(c, total, k) == c + k
    {
      NextTimesClimb(c, total, k);
    }
    NextTimesAdd(c, total, total - c, 1);
    assert NextTimes(c, total, total - c + 1) == 1;
    NextTimesAdd(c, total, total - c + 1, c - 1);
    NextTimesClimb(1, total, c - 1);
  }

  /** `ChannelController`: the loaded button table and channel count, and the channel on
      screen. */
  class ChannelController {
    const channelButtons: map<string, Geometry.Point>
    const totalChannels: int
    var currentChannel: int

    /** The channel on screen is the initial 1 or a channel in range. */
    ghost predicate Valid()
      reads this
    {
      currentChannel == 1 || 1 <= currentChannel <= totalChannels
    }

    /** The controller after `load_config` has read `buttons` and the `total_channels`
        entry (`None` when the configuration has no such entry, or there is no file). */
    constructor (buttons: map<string, Geometry.Point>, total: Option<int>)
      ensures channelButtons == buttons
      ensures total.Some? ==> totalChannels == total.value
      ensures total.None? ==> totalChannels == DefaultTotalChannels
      ensures currentChannel == 1
      ensures Valid()
    {
      channelButtons := buttons;
      totalChannels := if total.Some? then total.value else DefaultTotalChannels;
      currentChannel := 1;
    }

    /** The two checks of `switch_to_channel` before the click: the number is in range and
        `str(channel_num)` has a button. */
    predicate HasButton(ch: int) {
      1 <= ch <= totalChannels && Decimal.Show(ch as nat) in channelButtons
    }

    /** `switch_to_channel`: succeeds exactly when the channel is in range, has a button and
        the click goes through; only then does the channel on screen change. */
    method SwitchToChannel(ch: int, clickOk: bool) returns (ok: bool)
      requires Valid()
      modifies this
      ensures Valid()
      ensures ok <==> HasButton(ch) && clickOk
      ensures currentChannel == if ok then ch else old(currentChannel)
    {
      if ch < 1 || ch > totalChannels {
        return false;
      }
      var key := Decimal.Show(ch as nat);
      if key !in channelButtons {
        return false;
      }
      if !clickOk {
        return false;
      }
      currentChannel := ch;
      return true;
    }

    /** `switch_next_channel`: the target wraps past the last channel, and is returned
        whether or not the switch succeeded. */
    method SwitchNextChannel(clickOk: bool) returns (target: int)
      requires Valid()
      modifies this
      ensures Valid()
      ensures target == NextChannel(old(currentChannel), totalChannels)
      ensures currentChannel == if HasButton(target) && clickOk then target else old(currentChannel)
    {
      target := currentChannel + 1;
      if target > totalChannels {
        target := 1;
      }
      var _ := SwitchToChannel(target, clickOk);
    }

    /** `switch_previous_channel`: the target wraps below 1 to the last channel, and is
        returned whether or not the switch succeeded. */
    method SwitchPreviousChannel(clickOk: bool) returns (target: int)
      requires Valid()
      modifies this
      ensures Valid()
      ensures target == PreviousChannel(old(currentChannel), totalChannels)
      ensures currentChannel == if HasButton(target) && clickOk then target else old(currentChannel)
    {
      target := currentChannel - 1;
      if target < 1 {
        target := totalChannels;
      }
      var _ := SwitchToChannel(target, clickOk);
    }

    /** The channel on screen after trying channels 1..k with click outcomes `clicks`. */
    function LastSwitched(clicks: seq<bool>, k: nat, start: int): int
      requires k <= |clicks|
    {
      if k == 0 then start
      else if HasButton(k) && clicks[k - 1] then k
      else LastSwitched(clicks, k - 1, start)
    }

    /** `capture_all_channels`: channels 1..total in order, `clicks[ch - 1]` and
        `grabs[ch - 1]` the outcomes for channel `ch`. The result holds exactly the
        channels whose switch and grab both succeeded, each with its own frame. */
    method CaptureAllChannels(clicks: seq<bool>, grabs: seq<Option<Capture.Image>>)
      returns (captured: map<int, Capture.Image>)
      requires Valid()
      requires |clicks| == |grabs| == ChannelCount(totalChannels)
      modifies this
      ensures Valid()
      ensures forall ch :: ch in captured <==>
                1 <= ch <= totalChannels && HasButton(ch) && clicks[ch - 1] && grabs[ch - 1].Some?
      ensures forall ch :: ch in captured ==> captured[ch] == grabs[ch - 1].value
      ensures currentChannel == LastSwitched(clicks, |clicks|, old(currentChannel))
    {
      captured := map[];
      var ch := 1;
      while ch <= totalChannels
        invariant 1 <= ch <= ChannelCount(totalChannels) + 1
        invariant Valid()
        invariant forall c :: c in captured <==>
                    1 <= c < ch && HasButton(c) && clicks[c - 1] && grabs[c - 1].Some?
        invariant forall c :: c in captured ==> captured[c] == grabs[c - 1].value
        invariant currentChannel == LastSwitched(clicks, ch - 1, old(currentChannel))
      {
        var ok := SwitchToChannel(ch, clicks[ch - 1]);
        if ok {
          var image := grabs[ch - 1];
          if image.Some? {
            captured := captured[ch := image.value];
          }
        }
        ch := ch + 1;
      }
    }
  }
}
