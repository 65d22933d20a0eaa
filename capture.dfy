/** Seat lookups of the screen-capture component (src/capture.py): cutting one seat's
    region out of a captured frame, and counting and reading the configured seats.
    The frame itself comes from the screen grabber, which is external. */
module Capture {
  import opened Common

  /** One BGR pixel. */
  type Pixel = (int, int, int)

  /** A captured frame: `rows` rows of `cols` pixels (numpy's `shape[0]`, `shape[1]`). */
  type Image = seq<seq<Pixel>>

  /** One entry of the `seats` table; `channel` and `enabled` may be absent. */
  datatype Seat = Seat(x: int, y: int, width: int, height: int,
                       channel: Option<string>, enabled: Option<bool>)

  function Rows(img: Image): nat {
    |img|
  }

  function Cols(img: Image): nat {
    if |img| == 0 then 0 else |img[0]|
  }

  /** Every row has the same width, as in a numpy array. */
  ghost predicate Rectangular(img: Image) {
    forall r :: 0 <= r < |img| ==> |img[r]| == Cols(img)
  }

  /** `seat.get('enabled', True)`: a missing flag means enabled. */
  predicate IsEnabled(seat: Seat) {
    seat.enabled != Some(false)
  }

  /** Python's bound normalisation for a slice index on a sequence of length n. */
  function SliceIndex(i: int, n: nat): (r: nat)
    ensures r <= n
    ensures 0 <= i <= n ==> r == i
  {
    if i < 0 then (if i + n < 0 then 0 else i + n) else if i > n then n else i
  }

  /** Python's `s[a:b]`. */
  function PySlice<T>(s: seq<T>, a: int, b: int): (r: seq<T>)
    ensures 0 <= a <= b <= |s| ==> r == s[a..b]
  {
    var lo := SliceIndex(a, |s|);
    var hi := SliceIndex(b, |s|);
    if lo < hi then s[lo..hi] else []
  }

  /** `screen[y:y+h, x:x+w]`. */
  function Crop(img: Image, x: int, y: int, w: int, h: int): Image {
    var rows := PySlice(img, y, y + h);
    seq(|rows|, i requires 0 <= i < |rows| => PySlice(rows[i], x, x + w))
  }

  /** The seat is known and enabled, and its far edges lie within the frame. */
  predicate RoiFits(seats: map<string, Seat>, screen: Image, seatId: string) {
    && seatId in seats && IsEnabled(seats[seatId])
    && seats[seatId].y + seats[seatId].height <= Rows(screen)
    && seats[seatId].x + seats[seatId].width <= Cols(screen)
  }

  /** `get_seat_roi`: unknown seat, disabled seat, or a region whose far edge passes the
      frame's last row or column give `None`. Only the far edges are checked; for a seat
      inside the frame the result is the `height` x `width` block at row `y`, column `x`. */
  function GetSeatRoi(seats: map<string, Seat>, screen: Image, seatId: string): (r: Option<Image>)
    requires Rectangular(screen)
    ensures r.Some? <==> RoiFits(seats, screen, seatId)
    ensures seatId !in seats ==> r.None?
    ensures seatId in seats && !IsEnabled(seats[seatId]) ==> r.None?
    ensures seatId in seats && IsEnabled(seats[seatId]) ==>
              var s := seats[seatId];
              (r.Some? <==> s.y + s.height <= Rows(screen) && s.x + s.width <= Cols(screen))
    ensures r.Some? && seats[seatId].x >= 0 && seats[seatId].y >= 0
            && seats[seatId].width >= 0 && seats[seatId].height >= 0 ==>
              var s := seats[seatId];
              && |r.value| == s.height
              && forall i :: 0 <= i < s.height ==>
                   |r.value[i]| == s.width
                   && forall j :: 0 <= j < s.width ==> r.value[i][j] == screen[s.y + i][s.x + j]
  {
    if seatId !in seats then None
    else
      var s := seats[seatId];
      if !IsEnabled(s) then None
      else if s.y + s.height > Rows(screen) || s.x + s.width > Cols(screen) then None
      else Some(Crop(screen, s.x, s.y, s.width, s.height))
  }

  /** `get_all_seat_rois`: one region per seat that `get_seat_roi` can cut out. */
  method GetAllSeatRois(seats: map<string, Seat>, screen: Image) returns (rois: map<string, Image>)
    requires Rectangular(screen)
    ensures rois.Keys == set id | id in seats && GetSeatRoi(seats, screen, id).Some?
    ensures forall id :: id in rois ==> rois[id] == GetSeatRoi(seats, screen, id).value
    ensures rois.Keys <= seats.Keys
  {
    rois := map[];
    var pending := seats.Keys;
    while pending != {}
      invariant pending <= seats.Keys
      invariant rois.Keys == set id | id in seats.Keys - pending && GetSeatRoi(seats, screen, id).Some?
      invariant forall id :: id in rois ==> rois[id] == GetSeatRoi(seats, screen, id).value
      decreases pending
    {
      var seatId :| seatId in pending;
      var roi := GetSeatRoi(seats, screen, seatId);
      if roi.Some? {
        rois := rois[seatId := roi.value];
      }
      pending := pending - {seatId};
    }
  }

  function EnabledIds(seats: map<string, Seat>): set<string> {
    set id | id in seats && IsEnabled(seats[id])
  }

  /** The seats whose `enabled` flag is explicitly false. */
  function DisabledIds(seats: map<string, Seat>): set<string> {
    set id | id in seats && seats[id].enabled == Some(false)
  }

  /** `get_seat_count`: how many seats are enabled (a missing flag counts as enabled). */
  function GetSeatCount(seats: map<string, Seat>): (n: nat)
    ensures n <= |seats|
    ensures n == |seats| <==> forall id :: id in seats ==> IsEnabled(seats[id])
    ensures (forall id :: id in seats ==> seats[id].enabled.None?) ==> n == |seats|
    ensures n + |DisabledIds(seats)| == |seats|
  {
    var ids := EnabledIds(seats);
    assert ids <= seats.Keys;
    SubsetCard(ids, seats.Keys);
    assert seats.Keys - ids == DisabledIds(seats);
    assert |seats.Keys| == |seats|;
    |ids|
  }

  lemma SubsetCard(a: set<string>, b: set<string>)
    requires a <= b
    ensures |a| <= |b|
    ensures |a| == |b| <==> a == b
  {
    assert b == a + (b - a);
    assert |b| == |a| + |b - a|;
  }

  /** `get_seat_info`: the seat's entry, or `None` for an unknown id. */
  function GetSeatInfo(seats: map<string, Seat>, seatId: string): (r: Option<Seat>)
    ensures r.Some? <==> seatId in seats
    ensures r.Some? ==> r.value == seats[seatId]
  {
    if seatId in seats then Some(seats[seatId]) else None
  }
}
