/** The seat editor of src/roi_manager.py: the user drags rectangles over a captured
    frame and stores them as seats numbered 1, 2, ... under their decimal text, deletes
    the highest-numbered seat, or saves the table. Window drawing, key reading and the
    file write are external. The table is held here keyed by the seat number;
    `Tables.TextKeys` gives the `str(number)`-keyed dictionary the program stores. */
module RoiEditor {
  import opened Common
  import Decimal
  import Geometry
  import Capture
  import Tables

  /** A seat rectangle must be at least this many pixels wide and high. */
  const MinSeatSide: nat := 50

  /** `is_valid_rect`: both drag points are set and the drag spans at least 50 pixels
      each way. */
  function IsValidRect(start: Option<Geometry.Point>, end: Option<Geometry.Point>): (r: bool)
    ensures r <==> && start.Some? && end.Some?
                   && Geometry.Abs(end.value.x - start.value.x) >= MinSeatSide
                   && Geometry.Abs(end.value.y - start.value.y) >= MinSeatSide
    ensures r ==> var g := Geometry.DragRect(start.value, end.value);
                  g.width >= MinSeatSide && g.height >= MinSeatSide
  {
    if start.None? || end.None? then false
    else
      var width := Geometry.Abs(end.value.x - start.value.x);
      var height := Geometry.Abs(end.value.y - start.value.y);
      width >= MinSeatSide && height >= MinSeatSide
  }

  /** The seat stored for a rectangle under number `id`: enabled, on channel `CH%02d`. */
  function NewSeat(r: Geometry.Rect, id: nat): (s: Capture.Seat)
    ensures s.x == r.x && s.y == r.y && s.width == r.width && s.height == r.height
    ensures s.enabled == Some(true) && Capture.IsEnabled(s)
    ensures s.channel.Some? && |s.channel.value| >= 4 && s.channel.value[..2] == "CH"
            && Decimal.Parse(s.channel.value[2..]) == Some(id)
    ensures id < 10 ==> s.channel == Some("CH0" + Decimal.Show(id)) && |s.channel.value| == 4
    ensures id >= 10 ==> s.channel == Some("CH" + Decimal.Show(id))
  {
    var channel := "CH" + Decimal.Pad2(id);
    assert channel[2..] == Decimal.Pad2(id);
    assert id < 10 ==> Decimal.Pad2(id) == "0" + Decimal.Show(id) && channel == "CH0" + Decimal.Show(id);
    Capture.Seat(r.x, r.y, r.width, r.height, Some(channel), Some(true))
  }

  /** Seat 5 is stored on "CH05" and seat 12 on "CH12". */
  lemma NewSeatChannelExamples(r: Geometry.Rect)
    ensures NewSeat(r, 5).channel == Some("CH05")
    ensures NewSeat(r, 12).channel == Some("CH12")
  {
    assert Decimal.Show(5) == "5";
    assert "CH0" + "5" == "CH05";
    assert Decimal.Show(1) == "1";
    assert Decimal.Show(12) == "12" by { assert Decimal.Show(12) == Decimal.Show(1) + "2"; }
    assert "CH" + "12" == "CH12";
  }

  /** Numbers below `next`, and `next` one past the largest of them (1 for an empty table). */
  ghost predicate NumberedBelow(seats: map<nat, Capture.Seat>, next: int) {
    && next >= 1
    && (forall n :: n in seats ==> n < next)
    && (seats == map[] ==> next == 1)
    && (seats != map[] ==> next - 1 in seats)
  }

  /** Adding a seat under the next number keeps the numbering, never overwrites a seat,
      and deleting the highest-numbered seat afterwards gives back the table it started
      from. */
  lemma DeleteUndoesAdd(seats: map<nat, Capture.Seat>, next: nat, seat: Capture.Seat)
    requires NumberedBelow(seats, next)
    ensures next !in seats
    ensures NumberedBelow(seats[next := seat], next + 1)
    ensures seats[next := seat] - {next} == seats
  {
  }

  /** `ROIManager`'s editing state. */
  class RoiManager {
    var seats: map<nat, Capture.Seat>
    var currentSeatId: int
    var drawing: bool
    var startPoint: Option<Geometry.Point>
    var endPoint: Option<Geometry.Point>
    var tempRect: Option<Geometry.Rect>

    /** The table is numbered below `currentSeatId`, which is one past its largest
        number, and a pending rectangle is always large enough. */
    ghost predicate Valid()
      reads this
    {
      && NumberedBelow(seats, currentSeatId)
      && (tempRect.Some? ==> tempRect.value.width >= MinSeatSide && tempRect.value.height >= MinSeatSide)
    }

    constructor ()
      ensures seats == map[] && currentSeatId == 1
      ensures !drawing && startPoint.None? && endPoint.None? && tempRect.None?
      ensures Valid()
    {
      seats := map[];
      currentSeatId := 1;
      drawing := false;
      startPoint := None;
      endPoint := None;
      tempRect := None;
    }

    /** `mouse_callback`: a button press starts a drag at `p`, a move while dragging
        moves its end, and the release ends it at `p`, keeping the rectangle as pending
        only if it is valid. */
    method MouseCallback(event: Geometry.MouseEvent, p: Geometry.Point)
      requires Valid()
      modifies this
      ensures Valid()
      ensures seats == old(seats) && currentSeatId == old(currentSeatId)
      ensures event == Geometry.LeftButtonDown ==>
                drawing && startPoint == Some(p) && endPoint == Some(p) && tempRect == old(tempRect)
      ensures event == Geometry.MouseMove ==>
                drawing == old(drawing) && startPoint == old(startPoint) && tempRect == old(tempRect)
                && endPoint == if old(drawing) then Some(p) else old(endPoint)
      ensures event == Geometry.LeftButtonUp ==>
                !drawing && startPoint == old(startPoint) && endPoint == Some(p)
                && tempRect == if IsValidRect(old(startPoint), Some(p))
                               then Some(Geometry.DragRect(old(startPoint).value, p)) else old(tempRect)
      ensures event == Geometry.OtherEvent ==>
                drawing == old(drawing) && startPoint == old(startPoint) && endPoint == old(endPoint)
                && tempRect == old(tempRect)
    {
      match event
      case LeftButtonDown =>
        drawing := true;
        startPoint := Some(p);
        endPoint := Some(p);
      case MouseMove =>
        if drawing {
          endPoint := Some(p);
        }
      case LeftButtonUp =>
        drawing := false;
        endPoint := Some(p);
        if IsValidRect(startPoint, endPoint) {
          tempRect := Some(Geometry.DragRect(startPoint.value, endPoint.value));
        }
      case OtherEvent =>
    }

    /** `add_seat`: without a pending rectangle nothing changes; otherwise it becomes the
        seat numbered `currentSeatId` (a number not yet in the table), the number moves
        on, and the pending rectangle and drag points are cleared. */
    method AddSeat()
      requires Valid()
      modifies this
      ensures Valid()
      ensures drawing == old(drawing)
      ensures old(tempRect).None? ==>
                seats == old(seats) && currentSeatId == old(currentSeatId)
                && startPoint == old(startPoint) && endPoint == old(endPoint) && tempRect.None?
      ensures old(tempRect).Some? ==>
                && old(currentSeatId) !in old(seats)
                && seats == old(seats)[old(currentSeatId) := NewSeat(old(tempRect).value, old(currentSeatId))]
                && |seats| == |old(seats)| + 1
                && currentSeatId == old(currentSeatId) + 1
                && tempRect.None? && startPoint.None? && endPoint.None?
    {
      if tempRect.None? {
        return;
      }
      DeleteUndoesAdd(seats, currentSeatId, NewSeat(tempRect.value, currentSeatId));
      seats := seats[currentSeatId := NewSeat(tempRect.value, currentSeatId)];
      currentSeatId := currentSeatId + 1;
      tempRect := None;
      startPoint := None;
      endPoint := None;
    }

    /** `delete_last_seat`: on an empty table nothing changes and `None` comes back;
        otherwise the seat with the largest number is removed and returned, and
        `currentSeatId` becomes one past the largest remaining number, or 1. */
    method DeleteLastSeat() returns (deleted: Option<nat>)
      requires Valid()
      modifies this
      ensures Valid()
      ensures drawing == old(drawing) && startPoint == old(startPoint) && endPoint == old(endPoint)
      ensures tempRect == old(tempRect)
      ensures deleted.None? <==> old(seats) == map[]
      ensures deleted.None? ==> seats == old(seats) && currentSeatId == old(currentSeatId)
      ensures deleted.Some? ==>
                && deleted.value + 1 == old(currentSeatId)
                && deleted.value in old(seats)
                && (forall n :: n in old(seats) ==> n <= deleted.value)
                && seats == old(seats) - {deleted.value}
                && |seats| == |old(seats)| - 1
    {
      if seats == map[] {
        return None;
      }
      var maxId := Tables.MaxKey(seats);
      seats := seats - {maxId};
      deleted := Some(maxId);
      if seats != map[] {
        var rest := Tables.MaxKey(seats);
        currentSeatId := rest + 1;
      } else {
        currentSeatId := 1;
      }
    }

    /** `save_and_exit`: an empty table is refused without writing; otherwise the table
        is written, and `saveOk` stands for the writer's answer. Returns the dictionary
        written (if any) and whether the editor may exit. */
    method SaveAndExit(saveOk: bool) returns (written: Option<map<string, Capture.Seat>>, exit: bool)
      ensures written.Some? <==> seats != map[]
      ensures written.Some? ==> written.value == Tables.TextKeys(seats)
      ensures exit <==> written.Some? && saveOk
    {
      if seats == map[] {
        return None, false;
      }
      return Some(Tables.TextKeys(seats)), saveOk;
    }

    /** Taking over a non-empty table read from disk: the next number becomes one past
        its largest. */
    method UseExistingSeats(loaded: map<nat, Capture.Seat>)
      requires loaded != map[]
      requires Valid()
      modifies this
      ensures Valid()
      ensures seats == loaded
      ensures drawing == old(drawing) && startPoint == old(startPoint) && endPoint == old(endPoint)
      ensures tempRect == old(tempRect)
    {
      seats := loaded;
      var maxId := Tables.MaxKey(loaded);
      currentSeatId := maxId + 1;
    }
  }
}
